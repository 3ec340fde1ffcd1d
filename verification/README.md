# Forex.ai core, modelled in Dafny

Forex.ai is a React front end for forex and stock trading. It shows market data, an AI chat assistant and subscription plans. This project models its logic, one Dafny module per source file:

- **`QuoteAdapter`** (`quote_adapter.dfy`) models the Finnhub service. It covers:
  - quotes, and batches of quotes that fail as a whole;
  - the candle window for a time series and the conversion of candle arrays;
  - the connectivity probe and the market-status probe;
  - the interval and resolution tables;
  - the randomised spread;
  - the conversion of a vendor quote into the market table's row.
- **`MarketController`** (`market_controller.dfy`) models the market page as a class:
  - its state variables (table, news, loading, error banner, connection flag);
  - start-up: probe, then live data or the sample table;
  - the live fetch, the 30-second tick and the refresh button;
  - the CSS classes for price changes and news impact.
- **`ChatSession`** (`chat_session.dfy`) models the dashboard as a class:
  - the conversation with the scripted assistant;
  - the send guard and the delayed reply;
  - the keyword selector that picks a reply;
  - the quick prompts, the tab switch and the user dropdown;
  - the user's display name and initial.
- **`PromptAssembly`** (`prompt_assembly.dfy`) models the OpenAI helpers:
  - the message list for forex advice: system prompt, earlier context with roles alternating by position, then the question;
  - the fallbacks applied to the completion;
  - the trading-signal request and its single generic error.
- **`Plans`** (`plans.dfy`) models the upgrade page:
  - the plan table and the current plan;
  - each card's button caption and disabled state;
  - the price, unit and savings texts for the chosen billing cycle;
  - the "Save 17%" badge.
- **`Avatar`** (`avatar.dfy`) models the landing page's small pieces of logic:
  - testimonial initials and avatar colour;
  - the star row;
  - the mobile menu toggle.

Network replies, the OpenAI client, `Math.random()` draws, the clock, `JSON.stringify` and `JSON.parse` are parameters of the operations that use them.

Where the source mutates state (React state hooks in the two pages), the model is a class. Its methods are specified by pure transition functions on a state value, and the properties are proved about those functions. `PromptAssembly.BuildMessages` is a loop, as in the source, and is proved against the `Assembled` description.

## Model

| member | source | states |
|---|---|---|
| QuoteAdapter.IsoOf | Forex.io/src/services/finnHubService.ts:234-235 | `toISOString` succeeds exactly for instants within ±8.64e15 ms and then keeps the instant; otherwise it raises a RangeError |
| QuoteAdapter.UtcWeekday | Forex.io/src/services/finnHubService.ts:344 | `getUTCDay` is a weekday number 0..6 |
| QuoteAdapter.UtcHour | Forex.io/src/services/finnHubService.ts:343 | `getUTCHours` is the hour 0..23 whose hour-long slot holds the instant's second of the day |
| QuoteAdapter.WeekdayCalendar | Forex.io/src/services/finnHubService.ts:341-344 | the epoch is a Thursday (4); instants on the same day share a weekday; the next day is the next weekday, Saturday wrapping to Sunday |
| QuoteAdapter.IsMarketOpen | Forex.io/src/services/finnHubService.ts:341-349 | open iff the instant is representable, its second of the day lies in [14:00, 21:00) UTC and its day count falls on Monday to Friday |
| QuoteAdapter.MarketOpenWeekly | Forex.io/src/services/finnHubService.ts:341-349 | the open/closed answer repeats every seven days |
| QuoteAdapter.MarketOpenSamples | Forex.io/src/services/finnHubService.ts:341-349 | the epoch (a Thursday midnight) is closed; Monday 14:00 is open; 21:00 is closed; Saturday afternoon is closed |
| QuoteAdapter.ConvertIntervalToResolution | Forex.io/src/services/finnHubService.ts:292-308 | total: a listed interval maps to its table entry, an unknown one falls back to "1", and every answer has a length in the seconds table |
| QuoteAdapter.GetSecondsForResolution | Forex.io/src/services/finnHubService.ts:310-325 | total and at least a minute; an unknown resolution counts 60 s |
| QuoteAdapter.IntervalSecondsFromTable | Forex.io/src/services/finnHubService.ts:292-325 | for every interval, the seconds come from the table, never from the fallback |
| QuoteAdapter.IntervalSamples | Forex.io/src/services/finnHubService.ts:292-325 | "45min" widens to an hour; "3min" falls back to "1"; "1day" is "D" |
| QuoteAdapter.CandleWindow | Forex.io/src/services/finnHubService.ts:129-136 | `to` is the current second; the window spans outputsize × the resolution's seconds |
| QuoteAdapter.DefaultWindowIsHalfHour | Forex.io/src/services/finnHubService.ts:129-136 | the defaults ("1min", 30 bars) ask for the last 1800 seconds |
| QuoteAdapter.ConvertBars | Forex.io/src/services/finnHubService.ts:267-280 | the `t.map` succeeds iff every bar is convertible; bar k comes from index k of every array; a failure is a RangeError or TypeError |
| QuoteAdapter.ConvertCandleData | Forex.io/src/services/finnHubService.ts:267-289 | a converted series has status "ok", interval "1min", the symbol, and one bar per timestamp, in order |
| QuoteAdapter.CandleConversionSucceeds | Forex.io/src/services/finnHubService.ts:267-289 | conversion succeeds iff every parallel array is as long as `t` and every time is representable |
| QuoteAdapter.GetTimeSeries | Forex.io/src/services/finnHubService.ts:129-158 | one request for the computed window; a non-ok reply is an HTTP error, an undecodable body a parse error and the "no_data" sentinel a no-data error; any other decoded body gives exactly `ConvertCandleData` of it |
| QuoteAdapter.ConvertFinnhubToTwelveDataFormat | Forex.io/src/services/finnHubService.ts:229-265 | fails only on an unrepresentable time; otherwise the name falls back to the symbol, the prices are copied and volume and the 52-week fields are zero-filled |
| QuoteAdapter.GetQuote | Forex.io/src/services/finnHubService.ts:93-114 | either request not ok gives an HTTP error; both ok but either body undecodable gives a parse error; both decoded gives exactly `ConvertFinnhubToTwelveDataFormat` of the two bodies |
| QuoteAdapter.GetMultipleQuotes | Forex.io/src/services/finnHubService.ts:117-126 | succeeds iff every symbol's quote succeeds, with the quotes in symbol order; a failure is some symbol's own error |
| QuoteAdapter.NoPartialBatch | Forex.io/src/services/finnHubService.ts:117-126 | one failing symbol fails the whole batch |
| QuoteAdapter.TestConnection | Forex.io/src/services/finnHubService.ts:210-226 | connected iff the probe is ok, decodes, and carries a current price |
| QuoteAdapter.GetMarketStatus | Forex.io/src/services/finnHubService.ts:182-207 | a non-ok reply is an HTTP error and an undecodable body a parse error; an ok, decoded reply always succeeds, with status "ok", the vendor time, and "open" exactly when that time is positive |
| QuoteAdapter.CalculateSpread | Forex.io/src/services/finnHubService.ts:327-339 | major pairs spread in [0.8, 1.6), major stocks in [0.01, 0.03), everything else in [1.5, 3.0) |
| QuoteAdapter.StockSpreadIsSmallest | Forex.io/src/services/finnHubService.ts:327-339 | a major stock's spread is below any other symbol's, whatever the random draws |
| QuoteAdapter.SpreadSamples | Forex.io/src/services/finnHubService.ts:327-339 | EUR/USD, AAPL and NVDA fall into the pair, stock and other ranges |
| QuoteAdapter.ParseIntOrZero | Forex.io/src/services/finnHubService.ts:167 | `parseInt` truncates toward zero, for both signs |
| QuoteAdapter.ConvertToLocalFormat | Forex.io/src/services/finnHubService.ts:161-179 | the row's pair, price, change, percentage, high and low come from the quote; the spread is `CalculateSpread`; the volume is `parseInt` of the quote's volume, so a zero volume stays zero |
| QuoteAdapter.DisplayOfLiveQuote | Forex.io/src/services/finnHubService.ts:161-179 | normalising a vendor quote and converting it back for display gives the vendor's price fields and a zero volume |
| MarketController.LocalRows | Forex/src/pages/MarketPage.tsx:70-73 | one row per quote, in order: row i is `ConvertToLocalFormat` of quote i with draw i, so it carries that quote's pair, price, change, percentage, high and low and the spread for its price |
| MarketController.LiveRowsMatchSymbols | Forex/src/pages/MarketPage.tsx:63-75 | a successful batch for the tracked symbols gives one row per symbol, in symbol order |
| MarketController.MockDataMatchesSymbols | Forex/src/pages/MarketPage.tsx:90-102 | the sample table lists the tracked symbols in order |
| MarketController.GetChangeClass | Forex/src/pages/MarketPage.tsx:114-118 | up, down or neutral exactly by the sign of the change |
| MarketController.GetImpactClass | Forex/src/pages/MarketPage.tsx:120-127 | red, yellow or green exactly for high, medium or low; slate exactly for anything else |
| MarketController.MountedConsistent | Forex/src/pages/MarketPage.tsx:16-20 | the mount state is consistent and still connecting |
| MarketController.FetchedConsistent | Forex/src/pages/MarketPage.tsx:63-88 | every fetch preserves the page invariant |
| MarketController.SuccessfulFetch | Forex/src/pages/MarketPage.tsx:63-80 | a successful fetch replaces the table with one row per symbol and clears the banner |
| MarketController.FailedFetch | Forex/src/pages/MarketPage.tsx:81-87 | a failed fetch keeps the table and sets the banner |
| MarketController.FetchKeepsFlags | Forex/src/pages/MarketPage.tsx:63-88 | a fetch never changes the connection flag or the loading flag |
| MarketController.InitializedSettles | Forex/src/pages/MarketPage.tsx:38-61 | start-up ends with loading false and the connection flag equal to the probe's answer |
| MarketController.FailedProbeShowsSamples | Forex/src/pages/MarketPage.tsx:38-61 | a failed probe gives demo mode with exactly the sample rows and news and no banner |
| MarketController.InitializedConsistent | Forex/src/pages/MarketPage.tsx:38-61 | start-up preserves the page invariant |
| MarketController.TickOnlyWhenConnected | Forex/src/pages/MarketPage.tsx:29-33 | a tick does nothing while disconnected and is a fetch while connected |
| MarketController.FailedTickKeepsLiveRows | Forex/src/pages/MarketPage.tsx:29-33 | in live mode, a tick whose fetch fails keeps the rows, shows the banner and stays live |
| MarketController.RefreshedConsistent | Forex/src/pages/MarketPage.tsx:129-135 | refresh preserves the invariant; it stays connected when connected and ends loading otherwise |
| MarketController.Controller.constructor | Forex/src/pages/MarketPage.tsx:16-20 | the page mounts in the consistent connecting state |
| MarketController.Controller.LoadMockData | Forex/src/pages/MarketPage.tsx:90-112 | the new state is the samples applied to the old one |
| MarketController.Controller.FetchLiveData | Forex/src/pages/MarketPage.tsx:63-88 | the new state is the fetch transition of the old one |
| MarketController.Controller.InitializeMarketData | Forex/src/pages/MarketPage.tsx:38-61 | the new state is the start-up transition of the old one |
| MarketController.Controller.Tick | Forex/src/pages/MarketPage.tsx:25-36 | the new state is the timer transition of the old one |
| MarketController.Controller.RefreshData | Forex/src/pages/MarketPage.tsx:129-135 | the new state is the refresh transition of the old one |
| ChatSession.MissingCharRefutes | Forex.io/src/pages/DashboardPage.tsx:44-58 | `includes` is false when the keyword has a character the text lacks |
| ChatSession.ToLowerIdempotent | Forex.io/src/pages/DashboardPage.tsx:44 | lower-casing twice is lower-casing once |
| ChatSession.ToLowerAfterToUpper | Forex.io/src/pages/DashboardPage.tsx:44 | lower-casing forgets an earlier upper-casing |
| ChatSession.TopicOf | Forex.io/src/pages/DashboardPage.tsx:46-62 | the first keyword rule that matches decides: EUR/USD, then strategy, then risk, then market; the general reply iff none matches |
| ChatSession.ResponseTo | Forex.io/src/pages/DashboardPage.tsx:43-63 | the reply to a question is always an answer, never the greeting |
| ChatSession.ResponseRules | Forex.io/src/pages/DashboardPage.tsx:43-63 | on the lower-cased question: EUR/USD iff it asks about EUR/USD; strategy iff that fails and it asks about strategy; risk, then market likewise; the general reply iff no rule matches |
| ChatSession.GenerateMockResponse | Forex.io/src/pages/DashboardPage.tsx:43-63 | the text is the EUR/USD, strategy, risk, market or general reply, chosen by the first matching rule on the lower-cased input |
| ChatSession.AnswerShowsMockResponse | Forex.io/src/pages/DashboardPage.tsx:81-89 | the bubble the timer appends is an assistant bubble showing the selector's text for the captured input |
| ChatSession.MockResponseIgnoresCase | Forex.io/src/pages/DashboardPage.tsx:43-44 | the reply does not depend on the case of the question |
| ChatSession.FirstRuleWins | Forex.io/src/pages/DashboardPage.tsx:46-48 | any question mentioning EUR/USD gets the EUR/USD reply, whatever else it mentions |
| ChatSession.QuickPromptPair | Forex.io/src/pages/DashboardPage.tsx:106-112 | "Analyze EUR/USD trend" gets the EUR/USD reply |
| ChatSession.QuickPromptStrategy | Forex.io/src/pages/DashboardPage.tsx:106-112 | "Best trading strategy for beginners" gets the strategy reply |
| ChatSession.QuickPromptRisk | Forex.io/src/pages/DashboardPage.tsx:106-112 | "How to manage risk in forex" gets the risk reply |
| ChatSession.QuickPromptMarket | Forex.io/src/pages/DashboardPage.tsx:106-112 | "Current market outlook" gets the market reply |
| ChatSession.QuickPromptAnalysis | Forex.io/src/pages/DashboardPage.tsx:106-112 | "Technical analysis tips" gets the market reply, through "analysis" alone |
| ChatSession.EmailLocalPart | Forex.io/src/pages/DashboardPage.tsx:115 | the prefix of the address before its first '@'; the whole address when it has none |
| ChatSession.UserDisplayName | Forex.io/src/pages/DashboardPage.tsx:115 | never empty: the full name, else the address's local part, else "User" |
| ChatSession.UserInitial | Forex.io/src/pages/DashboardPage.tsx:116 | one character: the upper-cased first letter of the full name, else of the address, else "U" |
| ChatSession.InitialMatchesDisplayName | Forex.io/src/pages/DashboardPage.tsx:115-116 | when the name comes from the profile or the address, the initial is its first letter, upper-cased |
| ChatSession.InitialAndNameDisagreeOnBareDomain | Forex.io/src/pages/DashboardPage.tsx:115-116 | for "@example.com" the name is "User" but the initial is "@" |
| ChatSession.InitialChatIsConversation | Forex.io/src/pages/DashboardPage.tsx:14-27 | the mount state is a well-formed conversation: one greeting, an empty box, no spinner, the chat tab |
| ChatSession.Trim | Forex.io/src/pages/DashboardPage.tsx:66 | `trim()` leaves no white space at either end and is empty exactly when the input is all white space |
| ChatSession.SendRejected | Forex.io/src/pages/DashboardPage.tsx:66 | a send is refused iff the input is blank after trimming or a reply is pending |
| ChatSession.RejectedSendIsNoOp | Forex.io/src/pages/DashboardPage.tsx:66 | a blank input or a pending reply makes a send change nothing |
| ChatSession.AcceptedSend | Forex.io/src/pages/DashboardPage.tsx:65-79 | an accepted send appends one user message with the untrimmed text, clears the box and starts the spinner |
| ChatSession.SentKeepsConversation | Forex.io/src/pages/DashboardPage.tsx:65-79 | sending preserves the conversation invariant |
| ChatSession.RepliedKeepsConversation | Forex.io/src/pages/DashboardPage.tsx:81-91 | the reply preserves the conversation invariant |
| ChatSession.SendThenReply | Forex.io/src/pages/DashboardPage.tsx:65-92 | a send and its reply grow the list by two: the question, then the answer chosen for it; the spinner stops |
| ChatSession.QuickPromptsShown | Forex.io/src/pages/DashboardPage.tsx:346 | in a well-formed conversation, quick prompts show exactly while the list holds only the greeting |
| ChatSession.TabChangeClosesDropdown | Forex.io/src/pages/DashboardPage.tsx:101-104 | a tab change sets the tab, closes the dropdown and leaves the conversation untouched |
| ChatSession.Dashboard.constructor | Forex.io/src/pages/DashboardPage.tsx:14-27 | the dashboard mounts in the initial conversation |
| ChatSession.Dashboard.SetInputMessage | Forex.io/src/pages/DashboardPage.tsx:277 | the new state is the typed transition |
| ChatSession.Dashboard.HandleSendMessage | Forex.io/src/pages/DashboardPage.tsx:65-79 | the new state is the send transition |
| ChatSession.Dashboard.CompleteReply | Forex.io/src/pages/DashboardPage.tsx:81-91 | the new state is the reply transition |
| ChatSession.Dashboard.HandleTabChange | Forex.io/src/pages/DashboardPage.tsx:101-104 | the new state is the tab transition |
| ChatSession.Dashboard.ToggleDropdown | Forex.io/src/pages/DashboardPage.tsx:179 | the new state is the dropdown transition |
| PromptAssembly.ContextRole | Forex/src/lib/openai.ts:31-35 | entry i is the user's iff i is even and the assistant's iff i is odd |
| PromptAssembly.BuildMessages | Forex/src/lib/openai.ts:25-39 | the list is the system prompt, each context entry in order under its positional role, then the question |
| PromptAssembly.AssembledIsUnique | Forex/src/lib/openai.ts:25-39 | the description fixes the list completely |
| PromptAssembly.WithoutContext | Forex/src/lib/openai.ts:30-39 | without context the list is exactly the system prompt and the question |
| PromptAssembly.EvenContextAlternates | Forex/src/lib/openai.ts:30-39 | an even-length context gives a strictly alternating conversation |
| PromptAssembly.OddContextRepeatsUser | Forex/src/lib/openai.ts:30-39 | an odd-length context sends two user messages in a row |
| PromptAssembly.AdviceReply | Forex/src/lib/openai.ts:48-52 | a thrown call becomes the one advice error; non-empty content passes through; missing or empty content becomes the apology |
| PromptAssembly.GenerateForexAdvice | Forex/src/lib/openai.ts:8-53 | one gpt-4 call (1000 tokens, 0.7) on the assembled list; the reply is the fallback applied to what the client returned |
| PromptAssembly.SignalPrompt | Forex/src/lib/openai.ts:67-79 | the prompt opens by naming the symbol, then a blank line, the market data after "Market Data: ", and the instruction lines asking for a JSON recommendation |
| PromptAssembly.SignalRequest | Forex/src/lib/openai.ts:81-92 | gpt-4, 500 tokens, 0.3; exactly two messages: the analyst system prompt, then the user prompt built from the symbol and market data |
| PromptAssembly.AnalyzeTradingSignal | Forex/src/lib/openai.ts:55-103 | succeeds iff the call returns non-empty content that parses, with the parse as value; every failure is the one signal error |
| Plans.TablePrice | Forex/src/pages/UpgradePage.tsx:11-58 | the table's monthly or yearly price for the cycle |
| Plans.CurrentPlan | Forex/src/pages/UpgradePage.tsx:66 | never empty: the stored tier, or "free" when it is missing or empty |
| Plans.ButtonLabel | Forex/src/pages/UpgradePage.tsx:136-141 | "Current Plan" exactly on the current card; otherwise "Downgrade", "Upgrade to Premium" or "Upgrade to Pro" |
| Plans.DisplayedPrice | Forex/src/pages/UpgradePage.tsx:123-126 | the free card shows $0; paid cards show the table price for the cycle |
| Plans.UnitLabel | Forex/src/pages/UpgradePage.tsx:168-172 | "year" exactly on a paid card in the yearly cycle, "month" otherwise |
| Plans.SavingsShown | Forex/src/pages/UpgradePage.tsx:174-176 | a savings line exactly on a paid card in the yearly cycle |
| Plans.RoundedRatio | Forex/src/pages/UpgradePage.tsx:103-105 | the ratio rounded half up |
| Plans.DisplayedPrices | Forex/src/pages/UpgradePage.tsx:168-172 | premium shows 29/290, pro 99/990, and the free card's $0 agrees with the table |
| Plans.YearlyNeverCostsMore | Forex/src/pages/UpgradePage.tsx:11-58 | a year never costs more than twelve months, and costs strictly less on paid plans |
| Plans.SavingsMatchTable | Forex/src/pages/UpgradePage.tsx:174-176 | each hard-coded saving is twelve monthly prices less the yearly price |
| Plans.AdvertisedDiscountIsRounded | Forex/src/pages/UpgradePage.tsx:103-105 | "Save 17%" is the rounded yearly discount of both paid plans |
| Plans.NoTierMeansFree | Forex/src/pages/UpgradePage.tsx:66 | with no tier only the free card is current |
| Plans.IsCurrent | Forex/src/pages/UpgradePage.tsx:186-192 | a card that is current (the disabled test, also used for the caption at lines 136-141) rules out every other card being current, so at most one button is disabled |
| Plans.DisabledExactlyOnOwnTier | Forex/src/pages/UpgradePage.tsx:137-229 | the free, premium and pro buttons are disabled exactly when the current plan is "free", "premium" or "pro"; a user on a known tier sees exactly that tier's card disabled |
| Plans.UnknownTierEnablesEveryButton | Forex/src/pages/UpgradePage.tsx:186-192 | an unknown tier marks no card current, so the free card offers "Downgrade" |
| Avatar.SplitOnSpace | Forex.io/src/pages/HomePage.tsx:65 | `split(' ')` gives at least one piece and no piece holds a space |
| Avatar.SplitJoinRoundTrip | Forex.io/src/pages/HomePage.tsx:65 | joining the pieces with spaces restores the name |
| Avatar.Heads | Forex.io/src/pages/HomePage.tsx:65 | at most one initial per piece |
| Avatar.WordStarts | Forex.io/src/pages/HomePage.tsx:65 | the reference reading of the initials holds no space |
| Avatar.FirstPieceHead | Forex.io/src/pages/HomePage.tsx:65 | the first piece contributes the first character, unless the name is empty or opens with a space |
| Avatar.LaterPiecesHeads | Forex.io/src/pages/HomePage.tsx:65 | the later pieces contribute exactly the word starts after the first character |
| Avatar.InitialsAreWordStarts | Forex.io/src/pages/HomePage.tsx:65 | the initials are the characters that start a word, in order |
| Avatar.Initials | Forex.io/src/pages/HomePage.tsx:65 | the initials hold no space and number at most the pieces |
| Avatar.InsideWordNoStarts | Forex.io/src/pages/HomePage.tsx:65 | a word's inner characters start no word |
| Avatar.TwoWordInitials | Forex.io/src/pages/HomePage.tsx:65 | a first and a last name give their two first letters |
| Avatar.SarahInitials | Forex.io/src/pages/HomePage.tsx:83-105 | the first testimonial's avatar reads "SJ" |
| Avatar.MarcusInitials | Forex.io/src/pages/HomePage.tsx:83-105 | the second testimonial's avatar reads "MC" |
| Avatar.ElenaInitials | Forex.io/src/pages/HomePage.tsx:83-105 | the third testimonial's avatar reads "ER" |
| Avatar.FirstCodeUnit | Forex.io/src/pages/HomePage.tsx:73 | `charCodeAt` is a 16-bit code unit: the character itself on the basic plane, and beyond it the high surrogate 0xD800-0xDBFF whose 1024-wide block holds the code point |
| Avatar.ColorIndex | Forex.io/src/pages/HomePage.tsx:66-73 | a palette index for a non-empty name; none (NaN) for the empty name |
| Avatar.SameFirstCharSameColor | Forex.io/src/pages/HomePage.tsx:73 | names opening with the same character share a colour |
| Avatar.StarKeys | Forex.io/src/pages/HomePage.tsx:451-453 | one star per rating point, keyed 0 up |
| Avatar.TestimonialStars | Forex.io/src/pages/HomePage.tsx:83-105 | every testimonial shows five stars |
| Avatar.MenuToggleCycle | Forex.io/src/pages/HomePage.tsx:166-224 | the menu mounts closed with the bars icon; two presses restore the state; one press shows or hides the menu; the close icon shows exactly while the menu does |

## Left out

- Fetch, HTTP, JSON decoding, the Supabase profile lookup and environment variables are left out. Each reply is a parameter: `ok`, a status, and a body or a decoding failure.
- `QuoteAdapter.ConvertFinnhubToTwelveDataFormat` assumes that a decoded quote body has the declared shape, with every price and the time present. In the source, a missing or null `o`, `h`, `l`, `c`, `pc`, `d` or `dp` makes `.toString()` throw a TypeError, and a missing `t` makes `toISOString()` throw a RangeError. Neither path is modelled, so `GetQuote` and `GetMultipleQuotes` do not promise those errors either. `QuoteAdapter.GetMarketStatus` likewise assumes that `t` is present.
- Prices are `real`. `parseFloat` and `toString` round trips on decimal text are not modelled, and neither is floating-point rounding.
- `QuoteAdapter.ParseIntOrZero` models `parseInt(String(x))` as truncation. It does not model exponent notation, where `parseInt("1e21")` is 1.
- Network concurrency is left out. `Promise.all` in `getQuote` and `getMultipleQuotes` is the in-order combination of results; which rejection arrives first in time is not modelled. `GetMultipleQuotes` reports some failing symbol's error, not necessarily the first in time.
- `console.log` and `console.error` calls are left out.
- The timers are explicit steps. The 30-second interval is `Controller.Tick`, the 1.5-second reply delay is `Dashboard.CompleteReply`, and the unmount cleanup is not modelled.
- `MarketController.Controller.Tick`: stale closures are not modelled. The effect at Forex/src/pages/MarketPage.tsx:25-36 has `[]` dependencies, so its interval callback sees `apiConnected` as the first render's `false` for ever. As written, the source's 30-second poll therefore never fetches. `Ticked` and `TickOnlyWhenConnected` describe the intended behaviour instead: each tick reads the current flag and fetches while connected. Likewise, `fetchLiveData` reads `marketData` from its own render, while the model reads the current state.
- `MarketController.Controller.InitializeMarketData`: the `catch` branch (Forex/src/pages/MarketPage.tsx:54-57) is left out. It is unreachable, because `testConnection` and `fetchLiveData` catch every error themselves.
- Message ids and timestamps, `Date.now()` and `new Date()` are not modelled.
- Assistant messages are stored as reply tags. A tag's text is `ReplyText`.
- Case mapping is ASCII only, and Unicode case folding is left out.
- `Avatar.Initials`, `ChatSession.UserInitial` and `ChatSession.EmailLocalPart` work on Dafny `char`s, which are code points, while JavaScript strings are sequences of UTF-16 code units. For `n[0]` in `Avatar.Initials` and `charAt(0)` in `ChatSession.UserInitial`, a name opening with a character outside the basic plane gets its whole character in the model and a lone surrogate in the source. `split(' ')` and `split('@')` cut at the same places under either reading, because a space and '@' are single code units. Only `Avatar.FirstCodeUnit` models the surrogate.
- `Avatar.StarKeys`: the RangeError of `Array(rating)` for a rating that is not a natural number is not modelled, because ratings are `nat`.
- A missing profile field is the empty string. JavaScript's `||` treats both `undefined` and `""` as falsy, so this is the same.
- `JSON.stringify` of the market data is a parameter. `JSON.parse` is too; it is typed to return a `TradingSignal`, while the source does not check the shape of the object.
- Left out entirely:
  - `handleSignOut` (a call into the authentication context);
  - the `handleUpgrade` alert;
  - JSX layout and CSS;
  - `selectedPair` on the market page;
  - the random background particles;
  - the scroll effect on the landing page.
- Setting the billing cycle is a plain assignment. Each rendering function takes the cycle as an argument.
