/**
 * The change resolver `get_ticker_data`: the percent change, the latest
 * price and a three-day trend of one ticker, from its live quote record or,
 * failing that, from its recent daily closes.
 *
 * The Yahoo Finance calls are not modelled: the quote record and the close
 * history arrive as a `MarketData` value, with `None` where the call raised.
 */
module Quotes {
  import opened Wrappers
  import opened Numerals

  /** The `marketState` field of the quote record. */
  datatype MarketState = Pre | Post | OtherState

  /** The fields of `stock.info` the resolver reads; `None` is a missing or
      null field. */
  datatype QuoteInfo = QuoteInfo(
    preMarketPrice: Option<real>,
    regularMarketPrice: Option<real>,
    postMarketPrice: Option<real>,
    previousClose: Option<real>,
    marketState: MarketState)

  /** What the data source returns for one ticker: the quote record (None
      when `stock.info` raised) and the daily closes, oldest first (None when
      `stock.history` raised). */
  datatype MarketData = MarketData(info: Option<QuoteInfo>, history: Option<seq<real>>)

  /** The two trend phrases the history path can produce. */
  datatype Trend = KeepsRising | KeepsFalling

  /** A percent change. The live path divides Python floats and always
      gives a finite value; the history path divides the numpy closes, where
      a zero divisor gives an infinity or NaN instead of raising. */
  datatype Change = Finite(x: real) | Infinity(positive: bool) | NaN

  /** `abs(c) >= threshold` for a finite threshold: an infinity passes, NaN
      compares false. */
  predicate Reaches(c: Change, threshold: real) {
    match c
    case Finite(x) => AbsReal(x) >= threshold
    case Infinity(_) => true
    case NaN => false
  }

  /** `c > 0`: NaN compares false. */
  predicate IsPositive(c: Change) {
    match c
    case Finite(x) => x > 0.0
    case Infinity(positive) => positive
    case NaN => false
  }

  /** The tuple `get_ticker_data` returns. */
  datatype TickerData = TickerData(
    pct: Option<Change>,
    price: Option<real>,
    trend: Option<Trend>,
    isPreMarket: bool,
    isAfterHours: bool)

  /** The exceptions that escape `get_ticker_data`: from `stock.info`, which
      sits outside the `try`, and a zero previous close on the live path,
      since `ZeroDivisionError` is not in the caught tuple. */
  datatype TickerError = InfoUnavailable | ZeroDivision

  const NoTickerData := TickerData(None, None, None, false, false)

  /** The price pair chosen from the quote record, with the two flags. */
  datatype Selection = Selection(current: Option<real>, prevClose: Option<real>,
                                 isPreMarket: bool, isAfterHours: bool)

  /** Extended-hours prices are used only when the market state says so and
      the regular price is there to compare with. */
  function SelectQuote(info: QuoteInfo): (s: Selection)
    ensures s.isPreMarket <==>
              info.marketState == Pre && info.preMarketPrice.Some? && info.regularMarketPrice.Some?
    ensures s.isAfterHours <==>
              info.marketState == Post && info.postMarketPrice.Some? && info.regularMarketPrice.Some?
    ensures !(s.isPreMarket && s.isAfterHours)
    ensures s.isPreMarket ==> s.current == info.preMarketPrice && s.prevClose == info.regularMarketPrice
    ensures s.isAfterHours ==> s.current == info.postMarketPrice && s.prevClose == info.regularMarketPrice
    ensures !s.isPreMarket && !s.isAfterHours ==>
              s.current == info.regularMarketPrice && s.prevClose == info.previousClose
  {
    if info.preMarketPrice.Some? && info.regularMarketPrice.Some? && info.marketState == Pre then
      Selection(info.preMarketPrice, info.regularMarketPrice, true, false)
    else if info.postMarketPrice.Some? && info.regularMarketPrice.Some? && info.marketState == Post then
      Selection(info.postMarketPrice, info.regularMarketPrice, false, true)
    else
      Selection(info.regularMarketPrice, info.previousClose, false, false)
  }

  /** `(current - prev) / prev * 100`. */
  function PercentChange(current: real, prev: real): (p: real)
    requires prev != 0.0
    ensures p * prev == 100.0 * (current - prev)
  {
    (current - prev) / prev * 100.0
  }

  /** `round((current - prev) / prev * 100, 2)` on numpy floats when `prev`
      is zero: the sign of `current` decides the infinity, and 0/0 is NaN. */
  function ChangeOverZero(current: real): (c: Change)
    ensures c.Infinity? <==> current != 0.0
    ensures c.Infinity? ==> (c.positive <==> current > 0.0)
    ensures c.NaN? <==> current == 0.0
  {
    if current > 0.0 then Infinity(true)
    else if current < 0.0 then Infinity(false)
    else NaN
  }

  /** The trend over the last three closes: strictly rising, strictly
      falling, or none. */
  function TrendOf(closes: seq<real>): (t: Option<Trend>)
    requires |closes| >= 3
    ensures var n := |closes|;
            t == Some(KeepsRising) <==> closes[n - 3] < closes[n - 2] < closes[n - 1]
    ensures var n := |closes|;
            t == Some(KeepsFalling) <==> closes[n - 3] > closes[n - 2] > closes[n - 1]
  {
    var n := |closes|;
    if closes[n - 1] > closes[n - 2] > closes[n - 3] then Some(KeepsRising)
    else if closes[n - 1] < closes[n - 2] < closes[n - 3] then Some(KeepsFalling)
    else None
  }

  /** The fallback on the daily closes: fewer than two closes, or a failed
      call, give no data at all; a zero second-to-last close gives a
      non-finite change next to a real price. */
  function FromHistory(history: Option<seq<real>>): (d: TickerData)
    ensures !d.isPreMarket && !d.isAfterHours
    ensures d.pct.Some? <==> d.price.Some?
    ensures d.pct.Some? <==> history.Some? && |history.value| >= 2
    ensures d.pct.Some? ==>
              var c := history.value; var n := |c|;
              d.price == Some(RoundTo2(c[n - 1])) &&
              (d.pct.value.Finite? <==> c[n - 2] != 0.0) &&
              (c[n - 2] != 0.0 ==> d.pct == Some(Finite(RoundTo2(PercentChange(c[n - 1], c[n - 2]))))) &&
              (c[n - 2] == 0.0 ==> d.pct == Some(ChangeOverZero(c[n - 1])))
    ensures d.trend.Some? ==> d.pct.Some? && |history.value| >= 3
    ensures d.pct.Some? && |history.value| >= 3 ==> d.trend == TrendOf(history.value)
  {
    match history
    case None => NoTickerData
    case Some(closes) =>
      if |closes| < 2 then NoTickerData
      else
        var current := closes[|closes| - 1];
        var prev := closes[|closes| - 2];
        var trend := if |closes| >= 3 then TrendOf(closes) else None;
        var pct := if prev == 0.0 then ChangeOverZero(current)
                   else Finite(RoundTo2(PercentChange(current, prev)));
        TickerData(Some(pct), Some(RoundTo2(current)), trend, false, false)
  }

  /** `get_ticker_data`, with the fetch abstracted. */
  function GetTickerData(data: MarketData): (r: Result<TickerData, TickerError>)
    ensures r.Failure? <==>
              data.info.None? ||
              (var s := SelectQuote(data.info.value);
               s.current.Some? && s.prevClose == Some(0.0))
    ensures r.Success? ==> (r.value.pct.Some? <==> r.value.price.Some?)
    ensures r.Success? ==> !(r.value.isPreMarket && r.value.isAfterHours)
    ensures r.Success? && (r.value.isPreMarket || r.value.isAfterHours) ==>
              r.value.pct.Some? && r.value.trend.None?
    ensures r.Success? && r.value.trend.Some? ==> r.value.pct.Some?
    ensures r.Success? && r.value.pct.Some? && !r.value.pct.value.Finite? ==>
              data.history.Some? && |data.history.value| >= 2 &&
              data.history.value[|data.history.value| - 2] == 0.0
  {
    match data.info
    case None => Failure(InfoUnavailable)
    case Some(info) =>
      var s := SelectQuote(info);
      if s.current.None? || s.prevClose.None? then
        Success(FromHistory(data.history))
      else if s.prevClose.value == 0.0 then
        Failure(ZeroDivision)
      else
        var current := s.current.value;
        Success(TickerData(Some(Finite(RoundTo2(PercentChange(current, s.prevClose.value)))),
                           Some(RoundTo2(current)), None, s.isPreMarket, s.isAfterHours))
  }

  /** When the quote record holds both prices of the chosen pair, the live
      path answers, with no trend; otherwise the answer is the history's. */
  lemma LivePathOrHistory(data: MarketData)
    requires data.info.Some?
    ensures var s := SelectQuote(data.info.value);
            s.current.Some? && s.prevClose.Some? && s.prevClose.value != 0.0 ==>
              GetTickerData(data) == Success(TickerData(
                Some(Finite(RoundTo2(PercentChange(s.current.value, s.prevClose.value)))),
                Some(RoundTo2(s.current.value)), None, s.isPreMarket, s.isAfterHours))
    ensures var s := SelectQuote(data.info.value);
            s.current.None? || s.prevClose.None? ==>
              GetTickerData(data) == Success(FromHistory(data.history))
  {
  }

  /** A history of fewer than two closes gives no price at all, even when one
      close is there. */
  lemma OneCloseNoPrice(info: QuoteInfo, close: real)
    requires info.regularMarketPrice.None?
    ensures GetTickerData(MarketData(Some(info), Some([close]))) == Success(NoTickerData)
  {
  }

  /** A zero close before the last one does not lose the instrument: with no
      live price, closes of 1900, 0 and 1910 give an infinite rise, the
      price 1910 and no trend. */
  lemma ZeroCloseExample(info: QuoteInfo)
    requires info.regularMarketPrice.None?
    ensures GetTickerData(MarketData(Some(info), Some([1900.0, 0.0, 1910.0]))) ==
              Success(TickerData(Some(Infinity(true)), Some(1910.0), None, false, false))
  {
    RoundHundredths(191000);
  }
}
