# Market-Snapshot narration core in Dafny

This project models `market_text.py` of Market-Snapshot, the generator of a
spoken Hebrew market report. Each part of the generator is modelled and
proved in its own module:

- `Numerals` (numerals.dfy): the number verbaliser `number_to_hebrew_words`.
  It rounds to two decimals with Python's half-even `round`. It prints the
  value as Python's `str` does and splits that text at the point. It then
  speaks the integer part and each fractional digit on its own. The digit
  loop is a method, proved against the function `Spoken`.
- `DayTime` (daytime.dfy): times of day and the day-segment classifier
  `get_time_segment`.
- `Sessions` (sessions.dfy): the session rules of `get_market_report`.
  Tel Aviv opens at 09:59 and closes at 17:25. New York is open from 09:30
  to 16:00 inclusive. The file also computes the countdown to the Tel Aviv
  open.
- `Quotes` (quotes.dfy): the change resolver `get_ticker_data`. It picks
  the pre-market, post-market or regular quote pair. If that fails it falls
  back to the daily closes. It computes the percent change, the price and
  the strict three-day trend, and says which exceptions escape. A change is
  finite, or the infinity or NaN that numpy gives for a zero divisor.
- `Direction` (direction.dfy): the direction phraser `format_direction`.
  It chooses a base phrase and inflects it for feminine agreement.
- `Report` (report.dfy): the composer `get_market_report`. It has the fetch
  loop that fills `results`, the choice between index tickers and ETF
  proxies, and the five blocks in their fixed order. The composer is an
  imperative method, proved equal to the specification function
  `MarketReport`. That function gives the report, or the first exception a
  line raises, in evaluation order.
- `Wrappers` (wrappers.dfy): `Option` and `Result`.

External pieces are parameters:

- `num2words(n, lang='he')` is `words: int -> string`.
- The Yahoo Finance data is `market: string -> MarketData`. For each ticker
  it gives the quote record and the daily closes, each `None` where the
  call raised.
- The current Tel Aviv and New York times are two `Clock` values.

Report lines are structural. A line records its block, its instrument, its
direction phrase as words, its spoken numbers and its unit. The heading
holds the spoken hour, the spoken minute and the day-segment phrase. A line
does not hold the final vocalised sentence.

Behaviour of the code a reader might not expect:

- Every float is spoken with a fractional clause. 12.0 is "twelve point
  zero". There are no precision tiers by magnitude.
- The header speaks the 24-hour hour. There is no 12-hour dial.
- There is no weekend rule for either exchange.
- The dollar uses the generic rises/falls table. There is no
  strengthen/weaken table.
- A zero previous close does not mean a 0% change. On the live path the
  quote fields are Python floats. The `ZeroDivisionError` escapes
  `get_ticker_data`, and the caller stores all-None.
- On the history path the closes are numpy floats, and nothing raises.
  Dividing by a zero close gives +inf or -inf by the sign of the last close,
  or NaN when it is zero too. The instrument keeps its price.
- An infinite change reaches every threshold, so without a trend it reads
  as a dramatic rise or fall; with a trend it reads as "continues to rise"
  or "continues to fall". NaN reaches none and is not positive, so it reads as a plain
  fall. The last block never speaks the change, so its line is produced.
  Any other block speaks `abs(pct)`, and `int("inf")` or `int("nan")` in the
  verbaliser raises `ValueError`.
- A history of one close gives no price at all.
- An instrument the report shows without data does not give a "no data"
  line. It makes the whole report raise: `TypeError`, unless an earlier
  line raised first (see Findings). Before 09:59 the Tel Aviv indices are
  not shown, so their missing data raises nothing.

## Model

| member | source | states |
|---|---|---|
| `Numerals.Round2` | market_text.py:12 | `round(x, 2)` is the nearest hundredth, at most half a hundredth away, with ties going to the even hundredth |
| `Numerals.RoundHundredths` | market_text.py:12 | a value that already has two decimals rounds to itself |
| `Numerals.RoundTwice` | market_text.py:70 | re-rounding an already rounded change or price, or its absolute value, changes nothing |
| `Numerals.FloatText` | market_text.py:12-17 | `str(round(x,2))` split at the point has one or two fractional digits, with no trailing zero after the first. Whole part and digits give back the rounded value, and the sign survives except for -0.x |
| `Numerals.FloatTextUnique` | market_text.py:12-17 | the printed text is the only canonical text of its value, so reading it back is the inverse of printing it |
| `Numerals.NumberToHebrewWords` | market_text.py:7-25 | an int gives `num2words(n)`. A float gives the integer words, " נקודה ", then one word per fractional digit, joined by spaces. The loop builds exactly those digit words |
| `Numerals.SpokenFloat` | market_text.py:15-25 | a float always has a fractional clause of one or two digit words that, with the sign of the whole part, reconstruct the rounded value. A whole float ends in "point zero" |
| `Numerals.SpokenExample` | market_text.py:10-25 | 12.34 is "twelve point three four", 12.0 is "twelve point zero" and the int 12 is "twelve" |
| `DayTime.Replace` | market_text.py:156-161 | `replace(hour, minute)` keeps the seconds, so two replaced times differ by whole minutes |
| `DayTime.TimeSegment` | market_text.py:27-39 | [6,12) is morning, [12,18) afternoon and [18,23) evening. 23 and 0-5 are night. Every hour falls in exactly one segment |
| `Sessions.TaSessionAt` | market_text.py:156-204 | Tel Aviv is before the open iff the minute of day is before 09:59. It is closed iff after 17:25, and open from 09:59 to 17:25 inclusive |
| `Sessions.IsNyOpen` | market_text.py:159-164 | New York is open iff 09:30 <= minute of day <= 16:00. The date test always holds and there is no weekday test |
| `Sessions.UsSessionAt` | market_text.py:216-222 | the world note says open iff New York is open, pre-market iff before 09:30 and post-market iff after 16:00 |
| `Sessions.Countdown` | market_text.py:199-203 | minutes < 60, and hours·60 + minutes is the number of minutes to 09:59. The true time to 09:59:00 is in (count − 60 s, count] |
| `Quotes.SelectQuote` | market_text.py:52-65 | PRE with pre and regular prices present gives (pre, regular) and sets `is_pre_market`. POST with post and regular prices present gives (post, regular) and sets `is_after_hours`. Otherwise the pair is (regular, previousClose). The flags are never both set |
| `Quotes.PercentChange` | market_text.py:69 | the change times the previous close is 100 × (current − previous) |
| `Quotes.TrendOf` | market_text.py:82-89 | "keeps rising" iff the last three closes strictly increase, "keeps falling" iff they strictly decrease |
| `Quotes.ChangeOverZero` | market_text.py:91-92 | numpy's `(current - 0) / 0 * 100` is +inf iff the last close is positive, -inf iff it is negative, and NaN iff it is zero |
| `Quotes.FromHistory` | market_text.py:74-94 | there is data iff at least 2 closes were fetched. The price is the rounded last close. The change is finite iff the second-to-last close is nonzero, and is then the rounded percent change; otherwise it is the infinity or NaN of a zero divisor. A trend needs 3 closes. The flags stay off |
| `Quotes.GetTickerData` | market_text.py:41-94 | it raises iff the quote record is unavailable or the live pair has a zero previous close. Change and price are both present or both absent. The flags exclude each other, and extended-hours data has no trend. A non-finite change only comes from the history with a zero second-to-last close |
| `Quotes.LivePathOrHistory` | market_text.py:52-75 | a complete live pair with a nonzero previous close answers from the live quote with no trend. A missing price answers from the history |
| `Quotes.OneCloseNoPrice` | market_text.py:76-77 | a single close gives no data at all |
| `Quotes.ZeroCloseExample` | market_text.py:74-94 | with no live price, closes 1900, 0, 1910 give an infinite rise, the price 1910 and no trend |
| `Direction.ChoosePhrase` | market_text.py:100-108 | no change gives "not available". A trend gives its continuing phrase. Otherwise a change that reaches the threshold (abs(pct) >= threshold, which every infinity does and NaN does not) gives the dramatic form, and any other the plain form. The direction is rising iff pct > 0, so 0 and NaN read as falling |
| `Direction.Inflect` | market_text.py:110-112 | masculine leaves the phrase unchanged. Feminine turns every verb stem feminine and leaves every other word as it is |
| `Direction.FormatDirection` | market_text.py:96-112 | no change gives "לא זמין" whatever the trend, threshold or gender. Otherwise the phrase starts with a verb of the requested gender. It is "continues" iff there is a trend, and then ends in "to rise" or "to fall" as the trend says. Without a trend it is "rises" iff pct > 0, and three words long iff dramatic, the last two being "in a dramatic manner" |
| `Direction.InflectFeminine` | market_text.py:111 | after inflection no masculine stem remains, and inflecting twice is inflecting once |
| `Direction.FallingSharplyExample` | market_text.py:105-111 | −2 with threshold 1.5 is "falls dramatically" in both genders, and 0 is "falls". An infinite rise is dramatic even at threshold 5, and NaN is "falls" |
| `Report.EntryFor` | market_text.py:175-192 | a stored entry holds the five fields `get_ticker_data` returned for the symbol fetched, and all-None with both flags off when it raised. It is an index entry iff it is a US benchmark and New York is open |
| `Report.Results` | market_text.py:174-192 | the fetch loop stores an entry for every instrument |
| `Report.FetchResults` | market_text.py:174-192 | the loop over `all_tickers` builds exactly `Results`: every instrument, each with its `EntryFor` |
| `Report.LineError` | market_text.py:224-252 | a quote line raises nothing iff it can be rendered. It raises `ValueError` iff it speaks a change that is not finite, and `TypeError` when the change or price it speaks is missing |
| `Report.QuoteLines` | market_text.py:224-252 | a block has one line per instrument, in list order, each a quote or no-data line of that block and that instrument |
| `Report.BlockError` | market_text.py:224-252 | a block's loop raises iff some line cannot be rendered, and what it raises is that of one of its lines |
| `Report.BlockErrorFirst` | market_text.py:224-252 | the block raises the exception of its first line that cannot be rendered |
| `Report.IsraelError` | market_text.py:198-213 | the Israel block raises nothing iff it is before 09:59 or both Tel Aviv indices can be rendered. After 17:25 a Tel Aviv index without data raises `TypeError`, because both `pct > 0` tests come before any line is built |
| `Report.ReportFailure` | market_text.py:194-252 | the report raises nothing iff every line can be rendered. An exception of the Israel block is the report's; failing that, one of the US indices; failing both, one of the stocks |
| `Report.EmitLine` | market_text.py:224-231 | one line's f-string gives the quote line iff it can be rendered, and otherwise raises that line's exception |
| `Report.EmitQuotes` | market_text.py:224-252 | a block's loop emits one line per instrument, in order, with the block's threshold, gender and unit. It raises iff some line cannot be rendered, and then raises the first such line's exception |
| `Report.EmitIsrael` | market_text.py:194-213 | the Israel block is a countdown before 09:59, the closing levels after 17:25 and live quotes in between. It raises iff a Tel Aviv index shown lacks data or has a non-finite change, with `IsraelError`'s exception |
| `Report.GetMarketReport` | market_text.py:114-254 | the whole composer, including the fetch loop and the `+=` accumulation, is equal to `MarketReport`, exception included |
| `Report.BlocksInOrder` | market_text.py:198-248 | the block titles are exactly Israel, world, stocks, crypto, more in the world, in that order |
| `Report.CompleteIffShownRender` | market_text.py:194-252 | every line renders iff every instrument shown renders in its own block |
| `Report.ReportSucceedsIff` | market_text.py:199-252 | the report is produced iff every instrument it shows has a price and, outside the last block, a finite change. The Tel Aviv indices are not shown before the open |
| `Report.NotAvailableNeverSpoken` | market_text.py:205-252 | a produced report never contains the "not available" phrase or a no-data line |
| `Report.UsBenchmarkChoice` | market_text.py:176-186 | a US benchmark is fetched as its index ticker, marked as an index and quoted in points iff 09:30 <= NY time <= 16:00. Otherwise it is fetched as its ETF proxy and quoted in dollars |
| `Report.BlockSettingsExample` | market_text.py:236-252 | a 4% rise is dramatic for an index but plain and feminine for a stock (threshold 5). It is feminine for Ethereum and masculine for Bitcoin, and the dollar uses the generic phrase |
| `Report.IsraelOpenExample` | market_text.py:209-213 | at 11:15 with both Tel Aviv indices up 0.5% and no trend, both get the plain rising phrase |
| `Report.OneMissingQuoteAbortsReport` | market_text.py:243-246 | if Bitcoin's quote record cannot be fetched, the whole report raises at any time of day |
| `Report.ZeroCloseInLastBlock` | market_text.py:248-252 | gold with closes 1900, 0, 1910 and no live price is reported as rising dramatically at 1910 an ounce |
| `Report.ZeroCloseAbortsReport` | market_text.py:243-246 | the same closes for Bitcoin make the whole report raise |
| `Report.MissingDataGetsNoDataLine` | market_text.py:100-101 | in the corrected report, a shown instrument without a price gets a no-data line in its own block, and the five blocks keep their order |

## Left out

- main.py: speech synthesis, audio download and transcoding, and the upload are I/O and foreign calls.
- The Yahoo Finance calls (`yf.Ticker`, `.info`, `.history`) are external. They are the `market` parameter.
- `pytz` and `datetime.now` are external. The Tel Aviv and New York times are independent parameters, and the conversion between them is not modelled.
- Dates, microseconds and daylight-saving offsets are not modelled. `replace` keeps the seconds and microseconds, so every comparison and the countdown depend only on the time of day.
- `num2words` is external. It is the opaque `words` parameter.
- Floats are modelled as exact reals, apart from the infinities and NaN a zero close gives on the history path. `round` is exact half-even on the real value, so the binary error of the percent-change arithmetic is not modelled. Values of 10^16 and above, which Python prints in scientific notation (and the code then fails on), are modelled as if printed in plain digits. NaN closes are not modelled.
- A close of -0.0 is taken as 0.0. Dividing by -0.0 flips the sign of the infinity, and the model does not.
- `Report.EmitLine`: the `ValueError` that `int("inf")` or `int("nan")` raises inside `number_to_hebrew_words` is modelled by a check before the call, since the verbaliser is modelled on finite values only.
- A quote field that Yahoo returns as a Python `int` is treated as a float, so the model always speaks its fractional clause.
- The full Hebrew wording of each report line is not modelled. Lines are structural. The direction vocabulary, the day-segment phrases, the instrument names and the ticker symbols are kept.
- `Direction.Inflect`: the chain of `str.replace` calls is modelled word by word. In every phrase the code builds, the three stems occur only as whole words.
- `generate_market_text` only calls `get_market_report`, so it has no member of its own.

## Findings

| source | as written | input that shows it | evidently intended | confidence | as-written member | corrected member |
|---|---|---|---|---|---|---|
| market_text.py:205-252 | Every line calls `abs(d['pct'])` or `round(d['price'], 2)`. For an instrument whose data is missing these are `abs(None)` or `round(None, 2)`, which raise `TypeError`. Nothing catches it, so the whole report fails. The "לא זמין" branch of `format_direction` can therefore never reach the text. | the quote record of BTC-USD cannot be fetched, at any time of day | the instrument is reported as unavailable and the rest of the report is still produced | high; not executed | `Report.OneMissingQuoteAbortsReport` | `Report.MissingDataGetsNoDataLine` |
