/**
 * The market-data service: it turns the vendor's quote, profile and candle
 * payloads into the normalized quote shape and the display record the market
 * table renders.
 *
 * Every network round trip is a parameter: a `Response` carries the HTTP
 * outcome and the decoded JSON body (`None` when the body is not valid JSON),
 * and a request-to-response function stands for the vendor. JavaScript numbers
 * are `real`; a numeric string field of the normalized quote holds the number
 * whose decimal rendering the source stores there (the source only ever stores
 * `x.toString()` or the literal "0", which is `(0).toString()`). Unix times
 * are whole seconds.
 */
module QuoteAdapter {
  import opened Wrappers

  // ---------------------------------------------------------------------------
  // Vendor payloads
  // ---------------------------------------------------------------------------

  /** Instantaneous quote: current, change, percent change, high, low, open, previous close, unix seconds. */
  datatype FinnhubQuote = FinnhubQuote(c: real, d: real, dp: real, h: real, l: real, o: real, pc: real, t: int)

  /** Company profile; a field the vendor leaves out is the empty string here (both are falsy for `||`). */
  datatype FinnhubProfile = FinnhubProfile(name: string, exchange: string, currency: string)

  /** Candle series: parallel arrays plus the status sentinel `s`. */
  datatype FinnhubCandle = FinnhubCandle(
    c: seq<real>, h: seq<real>, l: seq<real>, o: seq<real>, s: string, t: seq<int>, v: seq<real>)

  /** The connectivity probe only looks for the presence of the current price `c`. */
  datatype ProbeQuote = ProbeQuote(c: Option<real>)

  /** One HTTP exchange: `ok` is a 2xx status; `body` is `None` when the JSON does not decode. */
  datatype Response<T> = Response(ok: bool, status: int, body: Option<T>)

  /** The two replies a single-symbol quote fetch waits for. */
  datatype QuoteReplies = QuoteReplies(quote: Response<FinnhubQuote>, profile: Response<FinnhubProfile>)

  // ---------------------------------------------------------------------------
  // Normalized shapes
  // ---------------------------------------------------------------------------

  /** The ISO 8601 text `Date.prototype.toISOString` gives for an instant, kept as that instant in milliseconds. */
  datatype IsoTime = IsoTime(epochMillis: int)

  datatype FiftyTwoWeek = FiftyTwoWeek(
    low: real, high: real, lowChange: real, highChange: real,
    lowChangePercent: real, highChangePercent: real, range: string)

  datatype TwelveDataQuote = TwelveDataQuote(
    symbol: string, name: string, exchange: string, micCode: string, currency: string,
    datetime: IsoTime, timestamp: int,
    open: real, high: real, low: real, close: real, volume: real,
    previousClose: real, change: real, percentChange: real, averageVolume: real,
    isMarketOpen: bool, fiftyTwoWeek: FiftyTwoWeek)

  /** The display record of the market table. */
  datatype CurrencyPair = CurrencyPair(
    pair: string, price: real, change: real, changePercent: real,
    high: real, low: real, spread: real, volume: int)

  datatype Bar = Bar(datetime: IsoTime, open: real, high: real, low: real, close: real, volume: real)

  datatype SeriesMeta = SeriesMeta(
    symbol: string, interval: string, currency: string, exchangeTimezone: string,
    exchange: string, micCode: string, kind: string)

  datatype TimeSeries = TimeSeries(meta: SeriesMeta, values: seq<Bar>, status: string)

  datatype CandleRequest = CandleRequest(symbol: string, resolution: string, from: int, to: int)

  datatype MarketStatus = MarketStatus(status: string, marketState: string, timestamp: int)

  /** What a call can raise. */
  datatype FetchError =
    | HttpError(status: int)                            // a single request was not ok
    | PairHttpError(quoteStatus: int, profileStatus: int) // the quote or the profile request was not ok
    | ParseError                                        // a body was not valid JSON
    | NoDataError                                       // the candle sentinel `s == "no_data"`
    | RangeError                                        // `toISOString` on a date outside the representable range
    | TypeError                                         // `.toString()` read on a missing array element

  // ---------------------------------------------------------------------------
  // Time
  // ---------------------------------------------------------------------------

  /** A JavaScript `Date` holds at most 8.64e15 milliseconds either side of the epoch. */
  const MaxEpochSeconds: int := 8_640_000_000_000
  const SecondsPerDay: int := 86400

  predicate ValidEpochSeconds(t: int) {
    -MaxEpochSeconds <= t <= MaxEpochSeconds
  }

  /** `new Date(t * 1000).toISOString()`: a RangeError for an unrepresentable date. */
  function IsoOf(t: int): (r: Result<IsoTime, FetchError>)
    ensures r.Success? <==> ValidEpochSeconds(t)
    ensures r.Success? ==> r.value.epochMillis == t * 1000
    ensures r.Failure? ==> r.error == RangeError
  {
    if ValidEpochSeconds(t) then Success(IsoTime(t * 1000)) else Failure(RangeError)
  }

  /** `getUTCDay()`: 0 is Sunday; day 0 of the epoch, 1970-01-01, was a Thursday. */
  function UtcWeekday(t: int): (d: int)
    ensures 0 <= d < 7
  {
    (t / SecondsPerDay + 4) % 7
  }

  /** `getUTCHours()` of an instant given in whole seconds. */
  function UtcHour(t: int): (h: int)
    ensures 0 <= h < 24
    ensures h * 3600 <= t % SecondsPerDay < (h + 1) * 3600
  {
    (t % SecondsPerDay) / 3600
  }

  /**
   * The rough US cash-market rule: Monday to Friday, 14:00 to 21:00 UTC.
   * An unrepresentable date reads NaN for both fields, and every comparison with NaN is false.
   */
  function IsMarketOpen(t: int): (open: bool)
    ensures open ==> ValidEpochSeconds(t)
    ensures open ==> 14 * 3600 <= t % SecondsPerDay < 21 * 3600
    ensures UtcWeekday(t) == 0 || UtcWeekday(t) == 6 ==> !open
    ensures open <==> ValidEpochSeconds(t) && 14 * 3600 <= t % SecondsPerDay < 21 * 3600
                      && (t / SecondsPerDay) % 7 in {0, 1, 4, 5, 6}
  {
    ValidEpochSeconds(t) && 1 <= UtcWeekday(t) <= 5 && 14 <= UtcHour(t) < 21
  }

  /**
   * The weekday follows the calendar: the epoch fell on a Thursday, every
   * instant of a day shares its weekday, and each day advances it by one.
   */
  lemma {:induction false} WeekdayCalendar(t: int, u: int)
    ensures UtcWeekday(0) == 4
    ensures t / SecondsPerDay == u / SecondsPerDay ==> UtcWeekday(t) == UtcWeekday(u)
    ensures UtcWeekday(t + SecondsPerDay) == (UtcWeekday(t) + 1) % 7
  {
    var next := t + SecondsPerDay;
    assert next / SecondsPerDay == t / SecondsPerDay + 1 by {
      assert next == (t / SecondsPerDay + 1) * SecondsPerDay + t % SecondsPerDay;
    }
  }

  /** The rule repeats every week: shifting a valid instant by seven days does not change the answer. */
  lemma {:induction false} MarketOpenWeekly(t: int)
    requires ValidEpochSeconds(t) && ValidEpochSeconds(t + 7 * SecondsPerDay)
    ensures IsMarketOpen(t + 7 * SecondsPerDay) == IsMarketOpen(t)
  {
    var w := t + 7 * SecondsPerDay;
    assert w / SecondsPerDay == t / SecondsPerDay + 7 by {
      assert w == (t / SecondsPerDay + 7) * SecondsPerDay + t % SecondsPerDay;
    }
    assert w % SecondsPerDay == t % SecondsPerDay;
    assert UtcWeekday(w) == UtcWeekday(t);
  }

  /** The epoch was a Thursday at midnight (closed); the next Monday at 14:00 UTC is open. */
  lemma MarketOpenSamples()
    ensures !IsMarketOpen(0)
    ensures IsMarketOpen(4 * SecondsPerDay + 14 * 3600)
    ensures !IsMarketOpen(4 * SecondsPerDay + 21 * 3600)
    ensures !IsMarketOpen(2 * SecondsPerDay + 15 * 3600)
  {
  }

  // ---------------------------------------------------------------------------
  // Lookup tables
  // ---------------------------------------------------------------------------

  /** Interval token to the vendor's resolution token. */
  const IntervalMap: map<string, string> := map[
    "1min" := "1", "5min" := "5", "15min" := "15", "30min" := "30",
    "45min" := "60", "1h" := "60", "2h" := "120", "4h" := "240",
    "1day" := "D", "1week" := "W", "1month" := "M"]

  /** Resolution token to its length in seconds (a month is 30 days). */
  const ResolutionSeconds: map<string, int> := map[
    "1" := 60, "5" := 300, "15" := 900, "30" := 1800, "60" := 3600,
    "120" := 7200, "240" := 14400, "D" := 86400, "W" := 604800, "M" := 2592000]

  /** Total: a token outside the table falls back to the finest resolution, and every answer is a key of the seconds table. */
  function ConvertIntervalToResolution(interval: string): (resolution: string)
    ensures resolution in ResolutionSeconds
    ensures interval !in IntervalMap ==> resolution == "1"
    ensures interval in IntervalMap ==> resolution == IntervalMap[interval] && resolution in IntervalMap.Values
  {
    if interval in IntervalMap then IntervalMap[interval] else "1"
  }

  /** Total and positive; an unknown resolution counts as one minute. */
  function GetSecondsForResolution(resolution: string): (seconds: int)
    ensures seconds >= 60
    ensures resolution in ResolutionSeconds ==> seconds == ResolutionSeconds[resolution]
    ensures resolution !in ResolutionSeconds ==> seconds == 60
  {
    if resolution in ResolutionSeconds then ResolutionSeconds[resolution] else 60
  }

  /** The seconds fallback is never reached through an interval: every interval's resolution has its own entry. */
  lemma IntervalSecondsFromTable(interval: string)
    ensures var res := ConvertIntervalToResolution(interval);
      GetSecondsForResolution(res) == ResolutionSeconds[res]
  {
  }

  /** "45min" has no vendor resolution and is widened to an hour; unknown tokens become one minute. */
  lemma IntervalSamples()
    ensures ConvertIntervalToResolution("45min") == "60"
    ensures GetSecondsForResolution(ConvertIntervalToResolution("45min")) == 3600
    ensures ConvertIntervalToResolution("3min") == "1"
    ensures ConvertIntervalToResolution("1day") == "D"
  {
  }

  // ---------------------------------------------------------------------------
  // Time series
  // ---------------------------------------------------------------------------

  /**
   * The candle request for `outputsize` bars ending now: `to` is the current
   * time floored to seconds, and the window spans exactly `outputsize` bars of
   * the chosen resolution.
   */
  function CandleWindow(symbol: string, interval: string, outputsize: int, nowMillis: int): (q: CandleRequest)
    ensures q.symbol == symbol
    ensures q.resolution == ConvertIntervalToResolution(interval)
    ensures q.to * 1000 <= nowMillis < (q.to + 1) * 1000
    ensures q.to - q.from == outputsize * ResolutionSeconds[q.resolution]
  {
    var resolution := ConvertIntervalToResolution(interval);
    var to := nowMillis / 1000;
    CandleRequest(symbol, resolution, to - outputsize * GetSecondsForResolution(resolution), to)
  }

  /** The defaults, interval "1min" and 30 bars, ask for the last half hour. */
  lemma DefaultWindowIsHalfHour(symbol: string, nowMillis: int)
    ensures var q := CandleWindow(symbol, "1min", 30, nowMillis); q.to - q.from == 1800
  {
  }

  /** Bar `j` can be converted: its time is representable and every parallel array reaches index `j`. */
  predicate BarReady(data: FinnhubCandle, j: nat)
    requires j < |data.t|
  {
    ValidEpochSeconds(data.t[j])
    && j < |data.o| && j < |data.h| && j < |data.l| && j < |data.c| && j < |data.v|
  }

  /** The bar the conversion produces from index `j` of every array. */
  function BarAt(data: FinnhubCandle, j: nat): Bar
    requires j < |data.t| && BarReady(data, j)
  {
    Bar(IsoTime(data.t[j] * 1000), data.o[j], data.h[j], data.l[j], data.c[j], data.v[j])
  }

  /**
   * The `.map` over the timestamps from index `i` on, left to right: the first
   * index whose date is unrepresentable raises RangeError, the first whose
   * open/high/low/close/volume element is missing raises TypeError.
   */
  function ConvertBars(data: FinnhubCandle, i: nat): (r: Result<seq<Bar>, FetchError>)
    requires i <= |data.t|
    decreases |data.t| - i
    ensures r.Success? <==> forall j :: i <= j < |data.t| ==> BarReady(data, j)
    ensures r.Success? ==> |r.value| == |data.t| - i
    ensures r.Success? ==> forall k :: 0 <= k < |r.value| ==> r.value[k] == BarAt(data, i + k)
    ensures r.Failure? ==> r.error == RangeError || r.error == TypeError
  {
    if i == |data.t| then Success([])
    else if !ValidEpochSeconds(data.t[i]) then
      assert !BarReady(data, i);
      Failure(RangeError)
    else if !BarReady(data, i) then Failure(TypeError)
    else
      match ConvertBars(data, i + 1)
      case Failure(e) => Failure(e)
      case Success(rest) => Success([BarAt(data, i)] + rest)
  }

  /** Whole-series conversion; the metadata is fixed, whatever interval was requested. */
  function ConvertCandleData(data: FinnhubCandle, symbol: string): (r: Result<TimeSeries, FetchError>)
    ensures r.Success? <==> forall j :: 0 <= j < |data.t| ==> BarReady(data, j)
    ensures r.Success? ==> r.value.status == "ok" && r.value.meta.interval == "1min" && r.value.meta.symbol == symbol
    ensures r.Success? ==> |r.value.values| == |data.t|
    ensures r.Success? ==> forall k :: 0 <= k < |data.t| ==> r.value.values[k] == BarAt(data, k)
  {
    match ConvertBars(data, 0)
    case Failure(e) => Failure(e)
    case Success(values) =>
      Success(TimeSeries(
        SeriesMeta(symbol, "1min", "USD", "America/New_York", "NASDAQ", "XNAS", "Common Stock"),
        values, "ok"))
  }

  /** Conversion succeeds exactly when every array is as long as the timestamps and every time is representable. */
  lemma {:induction false} CandleConversionSucceeds(data: FinnhubCandle, symbol: string)
    ensures ConvertCandleData(data, symbol).Success? <==>
      (|data.t| == 0 || (|data.o| >= |data.t| && |data.h| >= |data.t| && |data.l| >= |data.t|
                         && |data.c| >= |data.t| && |data.v| >= |data.t|))
      && forall j :: 0 <= j < |data.t| ==> ValidEpochSeconds(data.t[j])
  {
    var n := |data.t|;
    if ConvertCandleData(data, symbol).Success? {
      if n > 0 {
        assert BarReady(data, n - 1);
      }
      forall j | 0 <= j < n ensures ValidEpochSeconds(data.t[j]) {
        assert BarReady(data, j);
      }
    }
  }

  /**
   * `getTimeSeries(symbol, interval, outputsize)`: one candle request for the
   * computed window; a non-ok reply, a body that is not JSON and the
   * `no_data` sentinel each fail before any conversion.
   */
  function GetTimeSeries(
    symbol: string, interval: string, outputsize: int, nowMillis: int,
    vendor: CandleRequest -> Response<FinnhubCandle>): (r: Result<TimeSeries, FetchError>)
    ensures var resp := vendor(CandleWindow(symbol, interval, outputsize, nowMillis));
      && (!resp.ok ==> r == Failure(HttpError(resp.status)))
      && (resp.ok && resp.body.None? ==> r == Failure(ParseError))
      && (resp.ok && resp.body.Some? && resp.body.value.s == "no_data" ==> r == Failure(NoDataError))
      && (resp.ok && resp.body.Some? && resp.body.value.s != "no_data" ==>
            r == ConvertCandleData(resp.body.value, symbol))
      && (r.Success? ==> resp.ok && resp.body.Some? && resp.body.value.s != "no_data"
                         && |r.value.values| == |resp.body.value.t| && r.value.meta.interval == "1min")
  {
    var resp := vendor(CandleWindow(symbol, interval, outputsize, nowMillis));
    if !resp.ok then Failure(HttpError(resp.status))
    else if resp.body.None? then Failure(ParseError)
    else if resp.body.value.s == "no_data" then Failure(NoDataError)
    else ConvertCandleData(resp.body.value, symbol)
  }

  // ---------------------------------------------------------------------------
  // Quotes
  // ---------------------------------------------------------------------------

  /** `a || b` on strings: the empty string is the only falsy one. */
  function OrElse(a: string, b: string): string {
    if a != "" then a else b
  }

  /** Fields the instantaneous quote does not carry are zero-filled, never omitted. */
  predicate ZeroFilled(q: TwelveDataQuote) {
    q.volume == 0.0 && q.averageVolume == 0.0
    && q.fiftyTwoWeek == FiftyTwoWeek(0.0, 0.0, 0.0, 0.0, 0.0, 0.0, "0-0")
  }

  /** Merges a quote and a profile into the normalized shape. */
  function ConvertFinnhubToTwelveDataFormat(q: FinnhubQuote, p: FinnhubProfile, symbol: string)
    : (r: Result<TwelveDataQuote, FetchError>)
    ensures r.Failure? <==> !ValidEpochSeconds(q.t)
    ensures r.Failure? ==> r.error == RangeError
    ensures r.Success? ==>
      && r.value.symbol == symbol
      && (p.name == "" ==> r.value.name == symbol) && (p.name != "" ==> r.value.name == p.name)
      && (p.exchange == "" ==> r.value.exchange == "NASDAQ" && r.value.micCode == "XNAS")
      && (p.exchange != "" ==> r.value.exchange == p.exchange && r.value.micCode == p.exchange)
      && (p.currency == "" ==> r.value.currency == "USD") && (p.currency != "" ==> r.value.currency == p.currency)
      && r.value.exchange != "" && r.value.micCode != "" && r.value.currency != ""
      && (symbol != "" ==> r.value.name != "")
      && r.value.timestamp == q.t && r.value.datetime == IsoTime(q.t * 1000)
      && r.value.close == q.c && r.value.high == q.h && r.value.low == q.l && r.value.open == q.o
      && r.value.change == q.d && r.value.percentChange == q.dp && r.value.previousClose == q.pc
      && r.value.isMarketOpen == IsMarketOpen(q.t)
      && ZeroFilled(r.value)
  {
    match IsoOf(q.t)
    case Failure(e) => Failure(e)
    case Success(datetime) =>
      Success(TwelveDataQuote(
        symbol, OrElse(p.name, symbol), OrElse(p.exchange, "NASDAQ"), OrElse(p.exchange, "XNAS"),
        OrElse(p.currency, "USD"), datetime, q.t,
        q.o, q.h, q.l, q.c, 0.0, q.pc, q.d, q.dp, 0.0,
        IsMarketOpen(q.t),
        FiftyTwoWeek(0.0, 0.0, 0.0, 0.0, 0.0, 0.0, "0-0")))
  }

  /** `getQuote(symbol)`: both requests must be ok, then both bodies must decode, then the merge. */
  function GetQuote(symbol: string, replies: QuoteReplies): (r: Result<TwelveDataQuote, FetchError>)
    ensures !replies.quote.ok || !replies.profile.ok ==>
      r == Failure(PairHttpError(replies.quote.status, replies.profile.status))
    ensures replies.quote.ok && replies.profile.ok && (replies.quote.body.None? || replies.profile.body.None?) ==>
      r == Failure(ParseError)
    ensures replies.quote.ok && replies.profile.ok && replies.quote.body.Some? && replies.profile.body.Some? ==>
      r == ConvertFinnhubToTwelveDataFormat(replies.quote.body.value, replies.profile.body.value, symbol)
    ensures r.Success? ==> replies.quote.ok && replies.profile.ok && r.value.symbol == symbol
  {
    if !replies.quote.ok || !replies.profile.ok then
      Failure(PairHttpError(replies.quote.status, replies.profile.status))
    else if replies.quote.body.None? || replies.profile.body.None? then Failure(ParseError)
    else ConvertFinnhubToTwelveDataFormat(replies.quote.body.value, replies.profile.body.value, symbol)
  }

  /**
   * `getMultipleQuotes(symbols)`: one quote fetch per symbol, all or nothing.
   * On success the quotes line up with the symbols; the error reported is that
   * of the first failing symbol in input order.
   */
  function GetMultipleQuotes(symbols: seq<string>, vendor: string -> QuoteReplies)
    : (r: Result<seq<TwelveDataQuote>, FetchError>)
    ensures r.Success? <==> forall i :: 0 <= i < |symbols| ==> GetQuote(symbols[i], vendor(symbols[i])).Success?
    ensures r.Success? ==> |r.value| == |symbols|
    ensures r.Success? ==> forall i :: 0 <= i < |symbols| ==>
      r.value[i] == GetQuote(symbols[i], vendor(symbols[i])).value && r.value[i].symbol == symbols[i]
    ensures r.Failure? ==> exists i :: 0 <= i < |symbols| && GetQuote(symbols[i], vendor(symbols[i])) == Failure(r.error)
  {
    if symbols == [] then Success([])
    else
      match GetQuote(symbols[0], vendor(symbols[0]))
      case Failure(e) => Failure(e)
      case Success(q) =>
        match GetMultipleQuotes(symbols[1..], vendor)
        case Failure(e) =>
          assert forall i :: 1 <= i < |symbols| ==> symbols[i] == symbols[1..][i - 1];
          Failure(e)
        case Success(rest) => Success([q] + rest)
  }

  /** One failing symbol sinks the batch: there is never a partial array. */
  lemma NoPartialBatch(symbols: seq<string>, vendor: string -> QuoteReplies, i: nat)
    requires i < |symbols| && GetQuote(symbols[i], vendor(symbols[i])).Failure?
    ensures GetMultipleQuotes(symbols, vendor).Failure?
  {
  }

  /**
   * `testConnection()`: `response.ok && data.c !== undefined`, with a failed
   * fetch or an undecodable body caught and mapped to `false`.
   */
  function TestConnection(probe: Response<ProbeQuote>): (connected: bool)
    ensures connected <==> probe.ok && probe.body.Some? && probe.body.value.c.Some?
  {
    probe.ok && probe.body.Some? && probe.body.value.c.Some?
  }

  /** `getMarketStatus()`: a probe of the quote endpoint; "open" exactly when the vendor time is positive. */
  function GetMarketStatus(resp: Response<FinnhubQuote>): (r: Result<MarketStatus, FetchError>)
    ensures !resp.ok ==> r == Failure(HttpError(resp.status))
    ensures resp.ok && resp.body.None? ==> r == Failure(ParseError)
    ensures resp.ok && resp.body.Some? ==> r.Success?
    ensures r.Success? ==>
      && resp.ok && resp.body.Some? && r.value.status == "ok"
      && r.value.timestamp == resp.body.value.t
      && (r.value.marketState == "open" <==> resp.body.value.t > 0)
      && (r.value.marketState == "closed" <==> resp.body.value.t <= 0)
  {
    if !resp.ok then Failure(HttpError(resp.status))
    else if resp.body.None? then Failure(ParseError)
    else Success(MarketStatus("ok", if resp.body.value.t > 0 then "open" else "closed", resp.body.value.t))
  }

  // ---------------------------------------------------------------------------
  // Display records
  // ---------------------------------------------------------------------------

  const MajorPairs: seq<string> := ["EUR/USD", "GBP/USD", "USD/JPY", "USD/CHF"]
  const MajorStocks: seq<string> := ["AAPL", "GOOGL", "MSFT", "AMZN", "TSLA"]

  /**
   * The fabricated spread; `draw` stands for `Math.random()`. The price is
   * not used. Each symbol class has its own half-open range.
   */
  function CalculateSpread(price: real, symbol: string, draw: real): (spread: real)
    requires 0.0 <= draw < 1.0
    ensures symbol in MajorPairs ==> 0.8 <= spread < 1.6
    ensures symbol !in MajorPairs && symbol in MajorStocks ==> 0.01 <= spread < 0.03
    ensures symbol !in MajorPairs && symbol !in MajorStocks ==> 1.5 <= spread < 3.0
  {
    if symbol in MajorPairs then 0.8 + draw * 0.8
    else if symbol in MajorStocks then 0.01 + draw * 0.02
    else 1.5 + draw * 1.5
  }

  /** A major stock's spread is below any other symbol's, whatever the draws. */
  lemma StockSpreadIsSmallest(price: real, stock: string, other: string, d1: real, d2: real)
    requires 0.0 <= d1 < 1.0 && 0.0 <= d2 < 1.0
    requires stock in MajorStocks && other !in MajorStocks
    ensures CalculateSpread(price, stock, d1) < CalculateSpread(price, other, d2)
  {
    assert stock !in MajorPairs;
  }

  /** The classes of the symbols the market page tracks. */
  lemma SpreadSamples(price: real, draw: real)
    requires 0.0 <= draw < 1.0
    ensures 0.8 <= CalculateSpread(price, "EUR/USD", draw) < 1.6
    ensures 0.01 <= CalculateSpread(price, "AAPL", draw) < 0.03
    ensures 1.5 <= CalculateSpread(price, "NVDA", draw) < 3.0
  {
    assert "NVDA" != "AAPL" && "NVDA" != "GOOGL";
    assert "NVDA" !in MajorPairs && "NVDA" !in MajorStocks;
    assert "AAPL" !in MajorPairs;
  }

  /** `parseInt(text) || 0` on the rendering of `x`: truncation toward zero. */
  function ParseIntOrZero(x: real): (n: int)
    ensures 0.0 <= x ==> n as real <= x < n as real + 1.0
    ensures x < 0.0 ==> n as real - 1.0 < x <= n as real
  {
    if x >= 0.0 then x.Floor else -((-x).Floor)
  }

  /** `convertToLocalFormat(quote)` with `draw` for the spread. */
  function ConvertToLocalFormat(quote: TwelveDataQuote, draw: real): (row: CurrencyPair)
    requires 0.0 <= draw < 1.0
    ensures row.pair == quote.symbol
    ensures row.price == quote.close && row.high == quote.high && row.low == quote.low
    ensures row.change == quote.change && row.changePercent == quote.percentChange
    ensures row.spread == CalculateSpread(quote.close, quote.symbol, draw)
    ensures row.volume == ParseIntOrZero(quote.volume)
    ensures quote.volume == 0.0 ==> row.volume == 0
  {
    CurrencyPair(
      quote.symbol, quote.close, quote.change, quote.percentChange, quote.high, quote.low,
      CalculateSpread(quote.close, quote.symbol, draw), ParseIntOrZero(quote.volume))
  }

  /** Normalizing and then projecting gives back the vendor's price fields and a zero volume. */
  lemma {:induction false} DisplayOfLiveQuote(q: FinnhubQuote, p: FinnhubProfile, symbol: string, draw: real)
    requires 0.0 <= draw < 1.0 && ValidEpochSeconds(q.t)
    ensures var n := ConvertFinnhubToTwelveDataFormat(q, p, symbol);
      n.Success? && var row := ConvertToLocalFormat(n.value, draw);
      row.pair == symbol && row.price == q.c && row.high == q.h && row.low == q.l
      && row.change == q.d && row.changePercent == q.dp && row.volume == 0
  {
    var n := ConvertFinnhubToTwelveDataFormat(q, p, symbol);
    assert ZeroFilled(n.value);
  }
}
