/**
 * The market page's controller: it probes the vendor, then shows live rows or
 * the fixed sample table, refreshes on a timer and on demand, and recovers
 * from a failed fetch by keeping what it already shows.
 *
 * The probe reply, the vendor (symbol to quote and profile replies) and the
 * `Math.random()` draws of the spreads are arguments of the methods.
 */
module MarketController {
  import opened Wrappers
  import opened QuoteAdapter

  datatype MarketNews = MarketNews(id: string, title: string, impact: string, time: string, currency: string)

  /** The symbols the page tracks, in table order. */
  const Symbols: seq<string> := ["AAPL", "GOOGL", "MSFT", "TSLA", "AMZN", "NVDA"]

  const FetchFailedMessage: string := "Failed to fetch live market data"

  /** The sample table shown in demo mode. */
  const MockData: seq<CurrencyPair> := [
    CurrencyPair("AAPL", 175.43, 2.34, 1.35, 176.12, 173.45, 0.02, 125000),
    CurrencyPair("GOOGL", 142.67, -1.23, -0.85, 144.56, 141.89, 0.03, 98000),
    CurrencyPair("MSFT", 378.92, 4.56, 1.22, 380.45, 375.23, 0.04, 156000),
    CurrencyPair("TSLA", 234.56, -3.21, -1.35, 238.77, 232.11, 0.05, 67000),
    CurrencyPair("AMZN", 151.23, 1.87, 1.25, 152.34, 149.45, 0.03, 78000),
    CurrencyPair("NVDA", 456.78, 12.34, 2.78, 459.12, 445.67, 0.06, 54000)]

  const MockNews: seq<MarketNews> := [
    MarketNews("1", "Apple Announces New Product Launch Event", "high", "2 hours ago", "AAPL"),
    MarketNews("2", "Google Reports Strong Q4 Earnings", "high", "4 hours ago", "GOOGL"),
    MarketNews("3", "Microsoft Azure Growth Exceeds Expectations", "medium", "6 hours ago", "MSFT"),
    MarketNews("4", "Tesla Production Numbers Beat Estimates", "high", "8 hours ago", "TSLA")]

  /** One `Math.random()` draw per tracked symbol. */
  predicate ValidDraws(draws: seq<real>) {
    |draws| == |Symbols| && forall i :: 0 <= i < |draws| ==> 0.0 <= draws[i] < 1.0
  }

  /** A table is empty or has one row per tracked symbol, in symbol order. */
  predicate RowsForSymbols(rows: seq<CurrencyPair>) {
    rows == [] || (|rows| == |Symbols| && forall i :: 0 <= i < |rows| ==> rows[i].pair == Symbols[i])
  }

  /** `quotes.map(convertToLocalFormat)`, the i-th draw feeding the i-th spread. */
  function LocalRows(quotes: seq<TwelveDataQuote>, draws: seq<real>): (rows: seq<CurrencyPair>)
    requires |draws| == |quotes| && forall i :: 0 <= i < |draws| ==> 0.0 <= draws[i] < 1.0
    ensures |rows| == |quotes|
    ensures forall i :: 0 <= i < |rows| ==> rows[i] == ConvertToLocalFormat(quotes[i], draws[i])
    ensures forall i :: 0 <= i < |rows| ==>
      && rows[i].pair == quotes[i].symbol && rows[i].price == quotes[i].close
      && rows[i].change == quotes[i].change && rows[i].changePercent == quotes[i].percentChange
      && rows[i].high == quotes[i].high && rows[i].low == quotes[i].low
      && rows[i].spread == CalculateSpread(quotes[i].close, quotes[i].symbol, draws[i])
  {
    seq(|quotes|, i requires 0 <= i < |quotes| => ConvertToLocalFormat(quotes[i], draws[i]))
  }

  /** A successful batch for the tracked symbols yields one row per symbol, in symbol order. */
  lemma {:induction false} LiveRowsMatchSymbols(vendor: string -> QuoteReplies, draws: seq<real>)
    requires ValidDraws(draws) && GetMultipleQuotes(Symbols, vendor).Success?
    ensures RowsForSymbols(LocalRows(GetMultipleQuotes(Symbols, vendor).value, draws))
  {
    var quotes := GetMultipleQuotes(Symbols, vendor).value;
    var rows := LocalRows(quotes, draws);
    forall i | 0 <= i < |rows| ensures rows[i].pair == Symbols[i] {
      assert quotes[i].symbol == Symbols[i];
    }
  }

  /** The sample table lists the tracked symbols in order. */
  lemma MockDataMatchesSymbols()
    ensures RowsForSymbols(MockData)
  {
  }

  /** CSS class for a price change: a trichotomy on the sign. */
  function GetChangeClass(change: real): (cls: string)
    ensures change > 0.0 <==> cls == "price-up"
    ensures change < 0.0 <==> cls == "price-down"
    ensures change == 0.0 <==> cls == "price-neutral"
  {
    if change > 0.0 then "price-up"
    else if change < 0.0 then "price-down"
    else "price-neutral"
  }

  /** Badge colour for a news impact; anything unrecognised is slate. */
  function GetImpactClass(impact: string): (cls: string)
    ensures impact == "high" <==> cls == "bg-red-500"
    ensures impact == "medium" <==> cls == "bg-yellow-500"
    ensures impact == "low" <==> cls == "bg-green-500"
    ensures impact !in {"high", "medium", "low"} <==> cls == "bg-slate-500"
  {
    match impact
    case "high" => "bg-red-500"
    case "medium" => "bg-yellow-500"
    case "low" => "bg-green-500"
    case _ => "bg-slate-500"
  }

  /** Where the page stands: probing, showing live data, or showing the sample table. */
  datatype Mode = Connecting | Live | Demo

  /** The page's state variables. */
  datatype PageState = PageState(
    marketData: seq<CurrencyPair>, news: seq<MarketNews>, loading: bool, error: string, apiConnected: bool)
  {
    function Mode(): Mode {
      if loading then Connecting else if apiConnected then Live else Demo
    }
  }

  /** The table is empty or one row per symbol; news is empty or the samples; the banner is clear or the fetch failure. */
  predicate Consistent(s: PageState) {
    RowsForSymbols(s.marketData)
    && (s.news == [] || s.news == MockNews)
    && (s.error == "" || s.error == FetchFailedMessage)
  }

  /** The state the page mounts in. */
  const Mounted: PageState := PageState([], [], true, "", false)

  /** `loadMockData()`: the samples replace the table and the news. */
  function WithMockData(s: PageState): PageState {
    s.(marketData := MockData, news := MockNews)
  }

  /**
   * `fetchLiveData()`: one batch fetch of the tracked symbols. Success replaces
   * the table wholesale and clears the banner; failure raises the banner and
   * loads the samples only into an empty table.
   */
  function Fetched(s: PageState, vendor: string -> QuoteReplies, draws: seq<real>): PageState
    requires ValidDraws(draws)
  {
    match GetMultipleQuotes(Symbols, vendor)
    case Success(quotes) => s.(marketData := LocalRows(quotes, draws), error := "")
    case Failure(_) =>
      var flagged := s.(error := FetchFailedMessage);
      if |s.marketData| == 0 then WithMockData(flagged) else flagged
  }

  /** `initializeMarketData()`: probe, then fetch live or load the samples; `loading` ends false. */
  function Initialized(s: PageState, probe: Response<ProbeQuote>, vendor: string -> QuoteReplies, draws: seq<real>)
    : PageState
    requires ValidDraws(draws)
  {
    var connected := TestConnection(probe);
    var probed := s.(loading := true, error := "", apiConnected := connected);
    var loaded := if connected then Fetched(probed, vendor, draws) else WithMockData(probed);
    loaded.(loading := false)
  }

  /** The 30-second timer callback. */
  function Ticked(s: PageState, vendor: string -> QuoteReplies, draws: seq<real>): PageState
    requires ValidDraws(draws)
  {
    if s.apiConnected then Fetched(s, vendor, draws) else s
  }

  /** `refreshData()`: fetch when connected, start over otherwise. */
  function Refreshed(s: PageState, probe: Response<ProbeQuote>, vendor: string -> QuoteReplies, draws: seq<real>)
    : PageState
    requires ValidDraws(draws)
  {
    if s.apiConnected then Fetched(s, vendor, draws) else Initialized(s, probe, vendor, draws)
  }

  // ---------------------------------------------------------------------------
  // Properties of the transitions
  // ---------------------------------------------------------------------------

  /** The mount state is consistent. */
  lemma MountedConsistent()
    ensures Consistent(Mounted) && Mounted.Mode() == Connecting
  {
  }

  /** Every fetch keeps the state consistent. */
  lemma {:induction false} FetchedConsistent(s: PageState, vendor: string -> QuoteReplies, draws: seq<real>)
    requires ValidDraws(draws) && Consistent(s)
    ensures Consistent(Fetched(s, vendor, draws))
  {
    if GetMultipleQuotes(Symbols, vendor).Success? {
      LiveRowsMatchSymbols(vendor, draws);
    } else {
      MockDataMatchesSymbols();
    }
  }

  /** A successful fetch replaces the table with one row per tracked symbol, in order, and clears the banner. */
  lemma {:induction false} SuccessfulFetch(s: PageState, vendor: string -> QuoteReplies, draws: seq<real>)
    requires ValidDraws(draws) && GetMultipleQuotes(Symbols, vendor).Success?
    ensures var t := Fetched(s, vendor, draws);
      && t.marketData == LocalRows(GetMultipleQuotes(Symbols, vendor).value, draws)
      && |t.marketData| == |Symbols|
      && (forall i :: 0 <= i < |Symbols| ==> t.marketData[i].pair == Symbols[i])
      && t.error == "" && t.news == s.news
  {
    LiveRowsMatchSymbols(vendor, draws);
  }

  /**
   * A failed fetch raises the banner, keeps a non-empty table and the news as
   * they were, and loads the samples only into an empty table.
   */
  lemma FailedFetch(s: PageState, vendor: string -> QuoteReplies, draws: seq<real>)
    requires ValidDraws(draws) && GetMultipleQuotes(Symbols, vendor).Failure?
    ensures var t := Fetched(s, vendor, draws);
      && t.error == FetchFailedMessage
      && (s.marketData != [] ==> t.marketData == s.marketData && t.news == s.news)
      && (s.marketData == [] ==> t.marketData == MockData && t.news == MockNews)
  {
  }

  /** A fetch never touches the connection flag or the loading flag. */
  lemma FetchKeepsFlags(s: PageState, vendor: string -> QuoteReplies, draws: seq<real>)
    requires ValidDraws(draws)
    ensures Fetched(s, vendor, draws).apiConnected == s.apiConnected
    ensures Fetched(s, vendor, draws).loading == s.loading
  {
  }

  /** Start-up always ends with `loading` false and the connection flag set from the probe. */
  lemma InitializedSettles(s: PageState, probe: Response<ProbeQuote>, vendor: string -> QuoteReplies, draws: seq<real>)
    requires ValidDraws(draws)
    ensures var t := Initialized(s, probe, vendor, draws);
      !t.loading && t.apiConnected == TestConnection(probe) && t.Mode() != Connecting
  {
  }

  /** A failed probe: demo mode with exactly the six sample rows, the four sample news items and no banner. */
  lemma FailedProbeShowsSamples(s: PageState, probe: Response<ProbeQuote>, vendor: string -> QuoteReplies, draws: seq<real>)
    requires ValidDraws(draws) && !TestConnection(probe)
    ensures var t := Initialized(s, probe, vendor, draws);
      && t.marketData == MockData && t.news == MockNews && t.error == "" && t.Mode() == Demo
      && |t.marketData| == 6 && |t.news| == 4
  {
  }

  /** Start-up keeps the state consistent. */
  lemma {:induction false} InitializedConsistent(
    s: PageState, probe: Response<ProbeQuote>, vendor: string -> QuoteReplies, draws: seq<real>)
    requires ValidDraws(draws) && Consistent(s)
    ensures Consistent(Initialized(s, probe, vendor, draws))
  {
    var probed := s.(loading := true, error := "", apiConnected := TestConnection(probe));
    if TestConnection(probe) {
      FetchedConsistent(probed, vendor, draws);
    } else {
      MockDataMatchesSymbols();
    }
  }

  /** A tick while disconnected changes nothing; while connected it is a fetch. */
  lemma TickOnlyWhenConnected(s: PageState, vendor: string -> QuoteReplies, draws: seq<real>)
    requires ValidDraws(draws)
    ensures !s.apiConnected ==> Ticked(s, vendor, draws) == s
    ensures s.apiConnected ==> Ticked(s, vendor, draws) == Fetched(s, vendor, draws)
  {
  }

  /** Live mode, rows shown, a tick whose fetch fails: the rows stay, the banner shows, the page stays live. */
  lemma FailedTickKeepsLiveRows(s: PageState, vendor: string -> QuoteReplies, draws: seq<real>)
    requires ValidDraws(draws) && s.Mode() == Live && s.marketData != []
    requires GetMultipleQuotes(Symbols, vendor).Failure?
    ensures var t := Ticked(s, vendor, draws);
      t.marketData == s.marketData && t.error == FetchFailedMessage && t.Mode() == Live
  {
  }

  /** Refresh fetches when connected and starts over otherwise; either way the state stays consistent. */
  lemma {:induction false} RefreshedConsistent(
    s: PageState, probe: Response<ProbeQuote>, vendor: string -> QuoteReplies, draws: seq<real>)
    requires ValidDraws(draws) && Consistent(s)
    ensures Consistent(Refreshed(s, probe, vendor, draws))
    ensures s.apiConnected ==> Refreshed(s, probe, vendor, draws).apiConnected
    ensures !s.apiConnected ==> !Refreshed(s, probe, vendor, draws).loading
  {
    if s.apiConnected {
      FetchedConsistent(s, vendor, draws);
    } else {
      InitializedConsistent(s, probe, vendor, draws);
    }
  }

  // ---------------------------------------------------------------------------
  // The page component
  // ---------------------------------------------------------------------------

  class Controller {
    var marketData: seq<CurrencyPair>
    var news: seq<MarketNews>
    var loading: bool
    var error: string
    var apiConnected: bool

    function State(): PageState
      reads this
    {
      PageState(marketData, news, loading, error, apiConnected)
    }

    constructor ()
      ensures State() == Mounted
    {
      marketData := [];
      news := [];
      loading := true;
      error := "";
      apiConnected := false;
    }

    method LoadMockData()
      modifies this
      ensures State() == WithMockData(old(State()))
    {
      marketData := MockData;
      news := MockNews;
    }

    method FetchLiveData(vendor: string -> QuoteReplies, draws: seq<real>)
      requires ValidDraws(draws)
      modifies this
      ensures State() == Fetched(old(State()), vendor, draws)
    {
      var batch := GetMultipleQuotes(Symbols, vendor);
      match batch
      case Success(quotes) =>
        marketData := LocalRows(quotes, draws);
        error := "";
      case Failure(_) =>
        error := FetchFailedMessage;
        if |marketData| == 0 {
          LoadMockData();
        }
    }

    method InitializeMarketData(probe: Response<ProbeQuote>, vendor: string -> QuoteReplies, draws: seq<real>)
      requires ValidDraws(draws)
      modifies this
      ensures State() == Initialized(old(State()), probe, vendor, draws)
    {
      loading := true;
      error := "";
      var connected := TestConnection(probe);
      apiConnected := connected;
      if connected {
        FetchLiveData(vendor, draws);
      } else {
        LoadMockData();
      }
      loading := false;
    }

    method Tick(vendor: string -> QuoteReplies, draws: seq<real>)
      requires ValidDraws(draws)
      modifies this
      ensures State() == Ticked(old(State()), vendor, draws)
    {
      if apiConnected {
        FetchLiveData(vendor, draws);
      }
    }

    method RefreshData(probe: Response<ProbeQuote>, vendor: string -> QuoteReplies, draws: seq<real>)
      requires ValidDraws(draws)
      modifies this
      ensures State() == Refreshed(old(State()), probe, vendor, draws)
    {
      if apiConnected {
        FetchLiveData(vendor, draws);
      } else {
        InitializeMarketData(probe, vendor, draws);
      }
    }
  }
}
