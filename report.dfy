/**
 * The report composer `get_market_report`: classify both sessions, fetch
 * every instrument (index tickers or their ETF proxies for the four US
 * benchmarks), then emit the header and five blocks in a fixed order:
 * Israel, world, stocks, crypto, more in the world.
 *
 * Lines are kept structural (which block, which instrument, which phrase,
 * which spoken numbers) rather than as the final vocalised Hebrew text.
 * The clocks of Tel Aviv and New York, the data source and `num2words` are
 * parameters.
 */
module Report {
  import opened Wrappers
  import opened Numerals
  import opened DayTime
  import opened Sessions
  import opened Quotes
  import opened Direction

  datatype Instrument =
    | Sp500 | Nasdaq | DowJones | Russell
    | Ta125 | Ta35
    | Bitcoin | Ethereum
    | Gold | Oil | Dollar
    | Apple | Nvidia | Amazon | Tesla

  /** The keys of `all_tickers`, in its order: the US names first (their
      ETF values overwrite the index values), then the rest. */
  const AllInstruments: seq<Instrument> :=
    [Sp500, Nasdaq, DowJones, Russell, Ta125, Ta35, Bitcoin, Ethereum,
     Gold, Oil, Dollar, Apple, Nvidia, Amazon, Tesla]

  const UsIndices: seq<Instrument> := [Sp500, Nasdaq, DowJones, Russell]
  const IsraeliIndices: seq<Instrument> := [Ta125, Ta35]
  const Stocks: seq<Instrument> := [Apple, Nvidia, Amazon, Tesla]
  const Cryptos: seq<Instrument> := [Bitcoin, Ethereum]
  const MoreInWorldInstruments: seq<Instrument> := [Gold, Oil, Dollar]

  predicate IsUsIndex(i: Instrument) {
    i.Sp500? || i.Nasdaq? || i.DowJones? || i.Russell?
  }

  /** The spoken name of each instrument. */
  function Name(i: Instrument): string {
    match i
    case Sp500 => "מדד האס אנד פי חמש מאות"
    case Nasdaq => "הנאסדק"
    case DowJones => "הדאו ג'ונס"
    case Russell => "הראסל"
    case Ta125 => "תֵל אָבִיב-125"
    case Ta35 => "תֵל אָבִיב-35"
    case Bitcoin => "הָבִּיטְקוֹיְן"
    case Ethereum => "הָאִיתֵרְיוּם"
    case Gold => "הָזָהָב"
    case Oil => "הָנֵפְט"
    case Dollar => "הָדוֹלָר"
    case Apple => "אָפֵּל"
    case Nvidia => "אֵנְבִידְיָה"
    case Amazon => "אָמָזוֹן"
    case Tesla => "טֵסְלָה"
  }

  /** `indices_tickers`. */
  function IndexSymbol(i: Instrument): string
    requires IsUsIndex(i)
  {
    match i
    case Sp500 => "^GSPC"
    case Nasdaq => "^IXIC"
    case DowJones => "^DJI"
    case Russell => "^RUT"
  }

  /** `etf_tickers`. */
  function EtfSymbol(i: Instrument): string
    requires IsUsIndex(i)
  {
    match i
    case Sp500 => "SPY"
    case Nasdaq => "QQQ"
    case DowJones => "DIA"
    case Russell => "IWM"
  }

  /** The values of `all_tickers` for the instruments that are not US
      benchmarks. */
  function Symbol(i: Instrument): string
    requires !IsUsIndex(i)
  {
    match i
    case Ta125 => "^TA125.TA"
    case Ta35 => "TA35.TA"
    case Bitcoin => "BTC-USD"
    case Ethereum => "ETH-USD"
    case Gold => "GC=F"
    case Oil => "CL=F"
    case Dollar => "USDILS=X"
    case Apple => "AAPL"
    case Nvidia => "NVDA"
    case Amazon => "AMZN"
    case Tesla => "TSLA"
  }

  /** `ticker_to_fetch`: the US benchmarks are fetched as indices while New
      York is open and as their ETF proxies otherwise. */
  function FetchSymbol(i: Instrument, nyOpen: bool): string {
    if IsUsIndex(i) then (if nyOpen then IndexSymbol(i) else EtfSymbol(i)) else Symbol(i)
  }

  /** One entry of `results`. */
  datatype Entry = Entry(
    pct: Option<Change>,
    price: Option<real>,
    trend: Option<Trend>,
    isPreMarket: bool,
    isAfterHours: bool,
    isIndex: bool)

  /** What the loop stores for an instrument: the fetched data, or all None
      when `get_ticker_data` raised (the bare `except`). */
  function EntryFor(i: Instrument, market: string -> MarketData, nyOpen: bool): (e: Entry)
    ensures e.isIndex <==> IsUsIndex(i) && nyOpen
    ensures var fetched := GetTickerData(market(FetchSymbol(i, nyOpen)));
            fetched.Success? ==>
              e.pct == fetched.value.pct && e.price == fetched.value.price &&
              e.trend == fetched.value.trend && e.isPreMarket == fetched.value.isPreMarket &&
              e.isAfterHours == fetched.value.isAfterHours
    ensures GetTickerData(market(FetchSymbol(i, nyOpen))).Failure? ==>
              e.pct.None? && e.price.None? && e.trend.None? && !e.isPreMarket && !e.isAfterHours
    ensures e.pct.Some? <==> e.price.Some?
    ensures e.trend.Some? ==> e.pct.Some?
    ensures !(e.isPreMarket && e.isAfterHours)
  {
    var isIndex := IsUsIndex(i) && nyOpen;
    match GetTickerData(market(FetchSymbol(i, nyOpen)))
    case Success(d) => Entry(d.pct, d.price, d.trend, d.isPreMarket, d.isAfterHours, isIndex)
    case Failure(_) => Entry(None, None, None, false, false, isIndex)
  }

  predicate Covers(results: map<Instrument, Entry>) {
    forall i: Instrument :: i in results
  }

  lemma AllListed()
    ensures forall i: Instrument :: i in AllInstruments
  {
    forall i: Instrument ensures i in AllInstruments {
      match i
      case Sp500 => assert AllInstruments[0] == i;
      case Nasdaq => assert AllInstruments[1] == i;
      case DowJones => assert AllInstruments[2] == i;
      case Russell => assert AllInstruments[3] == i;
      case Ta125 => assert AllInstruments[4] == i;
      case Ta35 => assert AllInstruments[5] == i;
      case Bitcoin => assert AllInstruments[6] == i;
      case Ethereum => assert AllInstruments[7] == i;
      case Gold => assert AllInstruments[8] == i;
      case Oil => assert AllInstruments[9] == i;
      case Dollar => assert AllInstruments[10] == i;
      case Apple => assert AllInstruments[11] == i;
      case Nvidia => assert AllInstruments[12] == i;
      case Amazon => assert AllInstruments[13] == i;
      case Tesla => assert AllInstruments[14] == i;
    }
  }

  /** The `results` dictionary after the fetch loop. */
  function Results(market: string -> MarketData, nyOpen: bool): (m: map<Instrument, Entry>)
    ensures Covers(m)
  {
    AllListed();
    map i | i in AllInstruments :: EntryFor(i, market, nyOpen)
  }

  datatype Section = Israel | World | Equities | Crypto | MoreInWorld

  datatype Unit = Points | Dollars | PerOunce | PerBarrel | Shekels

  /** The exceptions a report line raises: `abs(None)`, `round(None, 2)` or
      `None > 0` on missing data, and `int("inf")` or `int("nan")` inside the
      verbaliser on a non-finite change. */
  datatype ReportError = TypeError | ValueError

  datatype Line =
    | Heading(hourWords: string, minuteWords: string, segmentWords: string)
    | Title(section: Section)
    | TaCountdown(hoursWords: string, minutesWords: string)
    | TaClosedNote
    | TaClosedIndex(index: Instrument, rose: bool, changeWords: string, levelWords: string)
    | UsNote(session: UsSession)
    | Quote(section: Section, name: Instrument, direction: seq<Word>,
            pctWords: Option<string>, priceWords: string, unit: Unit)
    | NoData(section: Section, name: Instrument)

  /** The per-block settings: stocks use threshold 5, everything else the
      default 1.5. */
  function Threshold(s: Section): real {
    if s == Equities then 5.0 else 1.5
  }

  /** Stocks and Ethereum take feminine agreement. */
  function IsFemale(s: Section, i: Instrument): bool {
    s == Equities || i == Ethereum
  }

  function UnitOf(s: Section, i: Instrument, e: Entry): Unit {
    match s
    case Israel => Points
    case World => if e.isIndex then Points else Dollars
    case Equities => Dollars
    case Crypto => Dollars
    case MoreInWorld =>
      if i == Gold then PerOunce else if i == Oil then PerBarrel else Shekels
  }

  /** A line can be rendered without raising: it needs the price, and every
      block but the last also speaks `abs(pct)`, which must be finite. */
  predicate Renderable(s: Section, e: Entry) {
    e.price.Some? && (s != MoreInWorld ==> e.pct.Some? && e.pct.value.Finite?)
  }

  /** The exception one quote line raises, in the order the line is
      evaluated: the change it speaks, then the price. */
  function LineError(s: Section, e: Entry): (err: Option<ReportError>)
    ensures err.None? <==> Renderable(s, e)
    ensures err == Some(ValueError) <==>
              s != MoreInWorld && e.pct.Some? && !e.pct.value.Finite?
  {
    if s != MoreInWorld && e.pct.None? then Some(TypeError)
    else if s != MoreInWorld && !e.pct.value.Finite? then Some(ValueError)
    else if e.price.None? then Some(TypeError)
    else None
  }

  /** The first of two exceptions in evaluation order. */
  function FirstError(a: Option<ReportError>, b: Option<ReportError>): Option<ReportError> {
    if a.Some? then a else b
  }

  /** A result that is the value unless an exception was raised. */
  function Outcome<T>(err: Option<ReportError>, v: T): Result<T, ReportError> {
    if err.None? then Success(v) else Failure(err.value)
  }

  function QuoteLine(s: Section, i: Instrument, e: Entry, words: int -> string): (l: Line)
    requires Renderable(s, e)
  {
    Quote(s, i, FormatDirection(e.pct, e.trend, Threshold(s), IsFemale(s, i)),
          if s == MoreInWorld then None else Some(Spoken(Float(AbsReal(e.pct.value.x)), words)),
          Spoken(Float(e.price.value), words),
          UnitOf(s, i, e))
  }

  /** The line of one instrument, or a "no data" line where `get_market_report` raises. */
  function LineOrNoData(s: Section, i: Instrument, e: Entry, words: int -> string): Line {
    if Renderable(s, e) then QuoteLine(s, i, e, words) else NoData(s, i)
  }

  function QuoteLines(s: Section, names: seq<Instrument>, results: map<Instrument, Entry>,
                      words: int -> string): (ls: seq<Line>)
    requires Covers(results)
    ensures |ls| == |names|
    ensures forall k :: 0 <= k < |ls| ==>
              (ls[k].Quote? || ls[k].NoData?) && ls[k].section == s && ls[k].name == names[k]
  {
    seq(|names|, k requires 0 <= k < |names| => LineOrNoData(s, names[k], results[names[k]], words))
  }

  predicate AllRenderable(s: Section, names: seq<Instrument>, results: map<Instrument, Entry>)
    requires Covers(results)
  {
    forall k :: 0 <= k < |names| ==> Renderable(s, results[names[k]])
  }

  /** The exception the loop over a block raises: that of the first line
      that cannot be rendered. */
  function BlockError(s: Section, names: seq<Instrument>, results: map<Instrument, Entry>): (err: Option<ReportError>)
    requires Covers(results)
    ensures err.None? <==> AllRenderable(s, names, results)
    ensures err.Some? ==> exists k :: 0 <= k < |names| && err == LineError(s, results[names[k]])
  {
    if names == [] then None
    else if LineError(s, results[names[0]]).Some? then LineError(s, results[names[0]])
    else BlockError(s, names[1..], results)
  }

  /** Lines that render do not change which exception the block raises. */
  lemma {:induction false} BlockErrorAt(s: Section, names: seq<Instrument>, results: map<Instrument, Entry>, k: nat)
    requires Covers(results)
    requires k <= |names| && AllRenderable(s, names[..k], results)
    ensures BlockError(s, names, results) == BlockError(s, names[k..], results)
  {
    if k == 0 {
      assert names[k..] == names;
    } else {
      assert names[..k][0] == names[0];
      assert names[1..][..k - 1] == names[..k][1..];
      BlockErrorAt(s, names[1..], results, k - 1);
      assert names[1..][k - 1..] == names[k..];
    }
  }

  function ClosedIndexLine(i: Instrument, e: Entry, words: int -> string): Line {
    if Renderable(Israel, e) then
      TaClosedIndex(i, IsPositive(e.pct.value), Spoken(Float(AbsReal(e.pct.value.x)), words),
                    Spoken(Float(e.price.value), words))
    else NoData(Israel, i)
  }

  /** The Israel block: a countdown before 09:59, the closing levels after
      17:25, the live quotes in between. */
  function IsraelLines(ta: Clock, results: map<Instrument, Entry>, words: int -> string): seq<Line>
    requires Covers(results)
  {
    [Title(Israel)] +
    match TaSessionAt(ta)
    case TaBeforeOpen =>
      var hm := Countdown(ta);
      [TaCountdown(Spoken(Int(hm.0), words), Spoken(Int(hm.1), words))]
    case TaClosed =>
      [TaClosedNote, ClosedIndexLine(Ta125, results[Ta125], words),
       ClosedIndexLine(Ta35, results[Ta35], words)]
    case TaOpen =>
      QuoteLines(Israel, IsraeliIndices, results, words)
  }

  predicate IsraelComplete(ta: Clock, results: map<Instrument, Entry>)
    requires Covers(results)
  {
    TaSessionAt(ta) != TaBeforeOpen ==>
      Renderable(Israel, results[Ta125]) && Renderable(Israel, results[Ta35])
  }

  /** The exception the Israel block raises. After the close both `pct > 0`
      comparisons come before either line speaks its change. */
  function IsraelError(ta: Clock, results: map<Instrument, Entry>): (err: Option<ReportError>)
    requires Covers(results)
    ensures err.None? <==> IsraelComplete(ta, results)
    ensures TaSessionAt(ta) == TaClosed && (results[Ta125].pct.None? || results[Ta35].pct.None?) ==>
              err == Some(TypeError)
  {
    match TaSessionAt(ta)
    case TaBeforeOpen => None
    case TaClosed =>
      if results[Ta125].pct.None? || results[Ta35].pct.None? then Some(TypeError)
      else FirstError(LineError(Israel, results[Ta125]), LineError(Israel, results[Ta35]))
    case TaOpen =>
      assert IsraeliIndices[0] == Ta125 && IsraeliIndices[1] == Ta35;
      BlockError(Israel, IsraeliIndices, results)
  }

  /** Every line of the report can be rendered. */
  predicate Complete(ta: Clock, results: map<Instrument, Entry>)
    requires Covers(results)
  {
    IsraelComplete(ta, results) &&
    AllRenderable(World, UsIndices, results) &&
    AllRenderable(Equities, Stocks, results) &&
    AllRenderable(Crypto, Cryptos, results) &&
    AllRenderable(MoreInWorld, MoreInWorldInstruments, results)
  }

  /** The exception `get_market_report` raises: the first one, block by
      block. */
  function ReportFailure(ta: Clock, results: map<Instrument, Entry>): (err: Option<ReportError>)
    requires Covers(results)
    ensures err.None? <==> Complete(ta, results)
    ensures IsraelError(ta, results).Some? ==> err == IsraelError(ta, results)
    ensures IsraelError(ta, results).None? && BlockError(World, UsIndices, results).Some? ==>
              err == BlockError(World, UsIndices, results)
    ensures IsraelError(ta, results).None? && BlockError(World, UsIndices, results).None? &&
            BlockError(Equities, Stocks, results).Some? ==>
              err == BlockError(Equities, Stocks, results)
  {
    FirstError(IsraelError(ta, results),
    FirstError(BlockError(World, UsIndices, results),
    FirstError(BlockError(Equities, Stocks, results),
    FirstError(BlockError(Crypto, Cryptos, results),
               BlockError(MoreInWorld, MoreInWorldInstruments, results)))))
  }

  /** The report with a "no data" line wherever `get_market_report` raises instead. */
  function TolerantReport(ta: Clock, ny: Clock, results: map<Instrument, Entry>,
                          words: int -> string): seq<Line>
    requires Covers(results)
  {
    [Heading(Spoken(Int(ta.hour), words), Spoken(Int(ta.minute), words), SegmentText(TimeSegment(ta.hour)))]
    + IsraelLines(ta, results, words)
    + [Title(World), UsNote(UsSessionAt(ny))] + QuoteLines(World, UsIndices, results, words)
    + [Title(Equities)] + QuoteLines(Equities, Stocks, results, words)
    + [Title(Crypto)] + QuoteLines(Crypto, Cryptos, results, words)
    + [Title(MoreInWorld)] + QuoteLines(MoreInWorld, MoreInWorldInstruments, results, words)
  }

  /** What `get_market_report` returns, or the exception it raises. */
  function MarketReport(ta: Clock, ny: Clock, market: string -> MarketData,
                        words: int -> string): Result<seq<Line>, ReportError>
  {
    var results := Results(market, IsNyOpen(ny));
    Outcome(ReportFailure(ta, results), TolerantReport(ta, ny, results, words))
  }

  /** The block titles of a report, in order. */
  function Titles(ls: seq<Line>): seq<Section> {
    if ls == [] then [] else (if ls[0].Title? then [ls[0].section] else []) + Titles(ls[1..])
  }

  lemma {:induction false} TitlesAppend(a: seq<Line>, b: seq<Line>)
    ensures Titles(a + b) == Titles(a) + Titles(b)
  {
    if a == [] {
      assert a + b == b;
    } else {
      assert (a + b)[0] == a[0];
      assert (a + b)[1..] == a[1..] + b;
      TitlesAppend(a[1..], b);
    }
  }

  lemma {:induction false} NoTitles(ls: seq<Line>)
    requires forall k :: 0 <= k < |ls| ==> !ls[k].Title?
    ensures Titles(ls) == []
  {
    if ls != [] {
      NoTitles(ls[1..]);
    }
  }

  lemma IsraelTitles(ta: Clock, results: map<Instrument, Entry>, words: int -> string)
    requires Covers(results)
    ensures Titles(IsraelLines(ta, results, words)) == [Israel]
  {
    var ls := IsraelLines(ta, results, words);
    NoTitles(ls[1..]);
    assert ls == [ls[0]] + ls[1..];
    TitlesAppend([ls[0]], ls[1..]);
  }

  /** Appending lines without a title keeps the titles. */
  lemma AppendUntitled(a: seq<Line>, b: seq<Line>)
    requires forall k :: 0 <= k < |b| ==> !b[k].Title?
    ensures Titles(a + b) == Titles(a)
  {
    NoTitles(b);
    TitlesAppend(a, b);
  }

  /** Appending a block that opens with its title adds that title. */
  lemma AppendTitled(a: seq<Line>, b: seq<Line>, s: Section)
    requires |b| > 0 && b[0] == Title(s)
    requires forall k :: 1 <= k < |b| ==> !b[k].Title?
    ensures Titles(a + b) == Titles(a) + [s]
  {
    NoTitles(b[1..]);
    assert b == [b[0]] + b[1..];
    TitlesAppend([b[0]], b[1..]);
    TitlesAppend(a, b);
  }

  /** Whatever the data, the blocks come in the fixed order Israel, world,
      stocks, crypto, more in the world, each under one title. */
  lemma BlocksInOrder(ta: Clock, ny: Clock, results: map<Instrument, Entry>, words: int -> string)
    requires Covers(results)
    ensures Titles(TolerantReport(ta, ny, results, words)) == [Israel, World, Equities, Crypto, MoreInWorld]
  {
    var q0 := [Heading(Spoken(Int(ta.hour), words), Spoken(Int(ta.minute), words), SegmentText(TimeSegment(ta.hour)))];
    NoTitles(q0);
    var israel := IsraelLines(ta, results, words);
    IsraelTitles(ta, results, words);
    TitlesAppend(q0, israel);
    var q1 := q0 + israel;
    var q2 := q1 + [Title(World), UsNote(UsSessionAt(ny))];
    AppendTitled(q1, [Title(World), UsNote(UsSessionAt(ny))], World);
    var q3 := q2 + QuoteLines(World, UsIndices, results, words);
    AppendUntitled(q2, QuoteLines(World, UsIndices, results, words));
    var q4 := q3 + [Title(Equities)];
    AppendTitled(q3, [Title(Equities)], Equities);
    var q5 := q4 + QuoteLines(Equities, Stocks, results, words);
    AppendUntitled(q4, QuoteLines(Equities, Stocks, results, words));
    var q6 := q5 + [Title(Crypto)];
    AppendTitled(q5, [Title(Crypto)], Crypto);
    var q7 := q6 + QuoteLines(Crypto, Cryptos, results, words);
    AppendUntitled(q6, QuoteLines(Crypto, Cryptos, results, words));
    var q8 := q7 + [Title(MoreInWorld)];
    AppendTitled(q7, [Title(MoreInWorld)], MoreInWorld);
    var q9 := q8 + QuoteLines(MoreInWorld, MoreInWorldInstruments, results, words);
    AppendUntitled(q8, QuoteLines(MoreInWorld, MoreInWorldInstruments, results, words));
    assert q9 == TolerantReport(ta, ny, results, words);
  }

  /** The instruments listed in each block. */
  function ListOf(s: Section): seq<Instrument> {
    match s
    case Israel => IsraeliIndices
    case World => UsIndices
    case Equities => Stocks
    case Crypto => Cryptos
    case MoreInWorld => MoreInWorldInstruments
  }

  /** The block that speaks an instrument, and its place there. */
  function Home(i: Instrument): (p: (Section, nat))
    ensures p.1 < |ListOf(p.0)| && ListOf(p.0)[p.1] == i
  {
    match i
    case Sp500 => (World, 0)
    case Nasdaq => (World, 1)
    case DowJones => (World, 2)
    case Russell => (World, 3)
    case Ta125 => (Israel, 0)
    case Ta35 => (Israel, 1)
    case Bitcoin => (Crypto, 0)
    case Ethereum => (Crypto, 1)
    case Gold => (MoreInWorld, 0)
    case Oil => (MoreInWorld, 1)
    case Dollar => (MoreInWorld, 2)
    case Apple => (Equities, 0)
    case Nvidia => (Equities, 1)
    case Amazon => (Equities, 2)
    case Tesla => (Equities, 3)
  }

  /** An instrument appears in the report: all of them, except the Tel Aviv
      indices while the countdown to the open is spoken instead. */
  predicate Shown(i: Instrument, ta: Clock) {
    (i == Ta125 || i == Ta35) ==> TaSessionAt(ta) != TaBeforeOpen
  }

  lemma ResultsAreFetched(market: string -> MarketData, nyOpen: bool)
    ensures forall i :: Results(market, nyOpen)[i] == EntryFor(i, market, nyOpen)
  {
    AllListed();
  }

  /** When every line renders, every instrument shown renders in its own
      block. */
  lemma CompleteShownRender(ta: Clock, results: map<Instrument, Entry>, i: Instrument)
    requires Covers(results) && Complete(ta, results) && Shown(i, ta)
    ensures Renderable(Home(i).0, results[i])
  {
    var (s, k) := Home(i);
    if s == Israel {
      assert i == Ta125 || i == Ta35;
    } else if s == World {
      assert AllRenderable(World, UsIndices, results);
    } else if s == Equities {
      assert AllRenderable(Equities, Stocks, results);
    } else if s == Crypto {
      assert AllRenderable(Crypto, Cryptos, results);
    } else {
      assert AllRenderable(MoreInWorld, MoreInWorldInstruments, results);
    }
  }

  /** A block that does not render has an instrument that does not render
      in it. */
  lemma BlockNotRendered(s: Section, results: map<Instrument, Entry>) returns (i: Instrument)
    requires Covers(results) && !AllRenderable(s, ListOf(s), results)
    ensures Home(i).0 == s && !Renderable(s, results[i])
  {
    var k :| 0 <= k < |ListOf(s)| && !Renderable(s, results[ListOf(s)[k]]);
    i := ListOf(s)[k];
    assert Home(i) == (s, k);
  }

  /** Every line renders exactly when every instrument shown renders in its
      own block. */
  lemma CompleteIffShownRender(ta: Clock, results: map<Instrument, Entry>)
    requires Covers(results)
    ensures Complete(ta, results) <==> forall i :: Shown(i, ta) ==> Renderable(Home(i).0, results[i])
  {
    if Complete(ta, results) {
      forall i | Shown(i, ta) ensures Renderable(Home(i).0, results[i]) {
        CompleteShownRender(ta, results, i);
      }
    } else if !IsraelComplete(ta, results) {
      var i := if !Renderable(Israel, results[Ta125]) then Ta125 else Ta35;
      assert Shown(i, ta) && Home(i).0 == Israel && !Renderable(Israel, results[i]);
    } else {
      var s := if !AllRenderable(World, UsIndices, results) then World
               else if !AllRenderable(Equities, Stocks, results) then Equities
               else if !AllRenderable(Crypto, Cryptos, results) then Crypto
               else MoreInWorld;
      var i := BlockNotRendered(s, results);
      assert Shown(i, ta);
    }
  }

  /** The report is produced exactly when every instrument it shows has a
      price and, outside the last block, a finite change; a single
      instrument without data makes it raise. */
  lemma ReportSucceedsIff(ta: Clock, ny: Clock, market: string -> MarketData, words: int -> string)
    ensures MarketReport(ta, ny, market, words).Success? <==>
              forall i :: Shown(i, ta) ==>
                var e := EntryFor(i, market, IsNyOpen(ny));
                e.price.Some? && (Home(i).0 != MoreInWorld ==> e.pct.Some? && e.pct.value.Finite?)
  {
    var results := Results(market, IsNyOpen(ny));
    ResultsAreFetched(market, IsNyOpen(ny));
    CompleteIffShownRender(ta, results);
  }

  /** A report line that names its instrument's direction. */
  predicate NoDegradedLine(ls: seq<Line>) {
    forall k :: 0 <= k < |ls| ==> !ls[k].NoData? && (ls[k].Quote? ==> ls[k].direction != [Not, Available])
  }

  lemma QuoteLinesSpeakDirections(s: Section, names: seq<Instrument>, results: map<Instrument, Entry>,
                                  words: int -> string)
    requires Covers(results)
    requires AllRenderable(s, names, results)
    requires forall i :: results[i].pct.Some? <==> results[i].price.Some?
    ensures NoDegradedLine(QuoteLines(s, names, results, words))
  {
    var ls := QuoteLines(s, names, results, words);
    forall k | 0 <= k < |ls| ensures !ls[k].NoData? && (ls[k].Quote? ==> ls[k].direction != [Not, Available]) {
      var e := results[names[k]];
      assert e.pct.Some?;
      assert ls[k] == QuoteLine(s, names[k], e, words);
      assert ls[k].direction[0].Stem?;
    }
  }

  lemma NoDegradedAppend(a: seq<Line>, b: seq<Line>)
    requires NoDegradedLine(a) && NoDegradedLine(b)
    ensures NoDegradedLine(a + b)
  {
    forall k | 0 <= k < |a + b|
      ensures !(a + b)[k].NoData? && ((a + b)[k].Quote? ==> (a + b)[k].direction != [Not, Available])
    {
      if k >= |a| {
        assert (a + b)[k] == b[k - |a|];
      }
    }
  }

  lemma IsraelSpeaksDirections(ta: Clock, results: map<Instrument, Entry>, words: int -> string)
    requires Covers(results)
    requires IsraelComplete(ta, results)
    requires forall i :: results[i].pct.Some? <==> results[i].price.Some?
    ensures NoDegradedLine(IsraelLines(ta, results, words))
  {
    var session := TaSessionAt(ta);
    if session == TaOpen {
      QuoteLinesSpeakDirections(Israel, IsraeliIndices, results, words);
      NoDegradedAppend([Title(Israel)], QuoteLines(Israel, IsraeliIndices, results, words));
    }
  }

  /** A report whose every line renders holds no degraded line. */
  lemma CompleteReportSpeaksDirections(ta: Clock, ny: Clock, results: map<Instrument, Entry>,
                                       words: int -> string)
    requires Covers(results) && Complete(ta, results)
    requires forall i :: results[i].pct.Some? <==> results[i].price.Some?
    ensures NoDegradedLine(TolerantReport(ta, ny, results, words))
  {
    var p0 := [Heading(Spoken(Int(ta.hour), words), Spoken(Int(ta.minute), words), SegmentText(TimeSegment(ta.hour)))];
    var p1 := IsraelLines(ta, results, words);
    var p2 := [Title(World), UsNote(UsSessionAt(ny))];
    var p3 := QuoteLines(World, UsIndices, results, words);
    var p4 := [Title(Equities)];
    var p5 := QuoteLines(Equities, Stocks, results, words);
    var p6 := [Title(Crypto)];
    var p7 := QuoteLines(Crypto, Cryptos, results, words);
    var p8 := [Title(MoreInWorld)];
    var p9 := QuoteLines(MoreInWorld, MoreInWorldInstruments, results, words);
    IsraelSpeaksDirections(ta, results, words);
    QuoteLinesSpeakDirections(World, UsIndices, results, words);
    QuoteLinesSpeakDirections(Equities, Stocks, results, words);
    QuoteLinesSpeakDirections(Crypto, Cryptos, results, words);
    QuoteLinesSpeakDirections(MoreInWorld, MoreInWorldInstruments, results, words);
    NoDegradedAppend(p0, p1);
    NoDegradedAppend(p0 + p1, p2);
    NoDegradedAppend(p0 + p1 + p2, p3);
    NoDegradedAppend(p0 + p1 + p2 + p3, p4);
    NoDegradedAppend(p0 + p1 + p2 + p3 + p4, p5);
    NoDegradedAppend(p0 + p1 + p2 + p3 + p4 + p5, p6);
    NoDegradedAppend(p0 + p1 + p2 + p3 + p4 + p5 + p6, p7);
    NoDegradedAppend(p0 + p1 + p2 + p3 + p4 + p5 + p6 + p7, p8);
    NoDegradedAppend(p0 + p1 + p2 + p3 + p4 + p5 + p6 + p7 + p8, p9);
  }

  /** The "not available" phrase never reaches a report: whenever the
      report is produced, every direction is a verb phrase and no line is
      a "no data" line. */
  lemma NotAvailableNeverSpoken(ta: Clock, ny: Clock, market: string -> MarketData, words: int -> string)
    requires MarketReport(ta, ny, market, words).Success?
    ensures NoDegradedLine(MarketReport(ta, ny, market, words).value)
  {
    var results := Results(market, IsNyOpen(ny));
    ResultsAreFetched(market, IsNyOpen(ny));
    CompleteReportSpeaksDirections(ta, ny, results, words);
  }

  /** The four US benchmarks are fetched as index tickers, marked as
      indices and quoted in points exactly while New York is open
      (09:30 to 16:00 inclusive); otherwise their ETF proxies are fetched and
      quoted in dollars. */
  lemma UsBenchmarkChoice(i: Instrument, market: string -> MarketData, ny: Clock)
    requires IsUsIndex(i)
    ensures var open := NY_OPEN <= MinuteOfDay(ny) <= NY_CLOSE;
            var e := Results(market, IsNyOpen(ny))[i];
            FetchSymbol(i, IsNyOpen(ny)) == (if open then IndexSymbol(i) else EtfSymbol(i)) &&
            (e.isIndex <==> open) &&
            UnitOf(World, i, e) == (if open then Points else Dollars)
  {
    ResultsAreFetched(market, IsNyOpen(ny));
  }

  /** The per-block settings at work on one rise of 4%: dramatic for an
      index, plain and feminine for a stock (threshold 5), feminine for
      Ethereum but not Bitcoin, and the generic phrase for the dollar. */
  lemma BlockSettingsExample(e: Entry, words: int -> string)
    requires e.pct == Some(Finite(4.0)) && e.trend.None? && e.price.Some?
    ensures QuoteLine(World, Sp500, e, words).direction == [Stem(Rises, Masculine), InManner, Dramatic]
    ensures QuoteLine(Equities, Apple, e, words).direction == [Stem(Rises, Feminine)]
    ensures QuoteLine(Crypto, Ethereum, e, words).direction == [Stem(Rises, Feminine), InManner, Dramatic]
    ensures QuoteLine(Crypto, Bitcoin, e, words).direction == [Stem(Rises, Masculine), InManner, Dramatic]
    ensures QuoteLine(MoreInWorld, Dollar, e, words).direction == [Stem(Rises, Masculine), InManner, Dramatic]
  {
    assert Reaches(Finite(4.0), 1.5) && !Reaches(Finite(4.0), 5.0) && IsPositive(Finite(4.0));
  }

  /** At 11:15 in Tel Aviv, with both indices up 0.5% and no trend, the
      Israel block gives both indices the plain rising phrase. */
  lemma IsraelOpenExample(results: map<Instrument, Entry>, words: int -> string)
    requires Covers(results)
    requires results[Ta125].pct == Some(Finite(0.5)) && results[Ta125].trend.None? && results[Ta125].price.Some?
    requires results[Ta35].pct == Some(Finite(0.5)) && results[Ta35].trend.None? && results[Ta35].price.Some?
    ensures var ls := IsraelLines(Clock(11, 15, 0), results, words);
            |ls| == 3 && ls[0] == Title(Israel) &&
            ls[1].Quote? && ls[1].name == Ta125 && ls[1].direction == [Stem(Rises, Masculine)] &&
            ls[2].Quote? && ls[2].name == Ta35 && ls[2].direction == [Stem(Rises, Masculine)]
  {
    assert TaSessionAt(Clock(11, 15, 0)) == TaOpen;
    assert IsraeliIndices[0] == Ta125 && IsraeliIndices[1] == Ta35;
    assert !Reaches(Finite(0.5), 1.5) && IsPositive(Finite(0.5));
    var q := QuoteLines(Israel, IsraeliIndices, results, words);
    assert q[0] == QuoteLine(Israel, Ta125, results[Ta125], words);
    assert q[1] == QuoteLine(Israel, Ta35, results[Ta35], words);
    assert IsraelLines(Clock(11, 15, 0), results, words) == [Title(Israel)] + q;
  }

  /** As written: when the quote record of one instrument cannot be fetched
      (Bitcoin here), the whole report raises, at any time of day. */
  lemma OneMissingQuoteAbortsReport(ta: Clock, ny: Clock, market: string -> MarketData, words: int -> string)
    requires market(Symbol(Bitcoin)).info.None?
    ensures MarketReport(ta, ny, market, words).Failure?
  {
    ReportSucceedsIff(ta, ny, market, words);
    assert Shown(Bitcoin, ta);
    assert EntryFor(Bitcoin, market, IsNyOpen(ny)).price.None?;
  }

  /** As written: a zero second-to-last close does not stop the last block,
      which speaks no change. Gold with closes 1900, 0 and 1910 and no live
      price is reported as rising dramatically, at 1910 an ounce. */
  lemma ZeroCloseInLastBlock(market: string -> MarketData, nyOpen: bool, words: int -> string)
    requires market(Symbol(Gold)).info.Some? && market(Symbol(Gold)).info.value.regularMarketPrice.None?
    requires market(Symbol(Gold)).history == Some([1900.0, 0.0, 1910.0])
    ensures var e := EntryFor(Gold, market, nyOpen);
            Renderable(MoreInWorld, e) &&
            QuoteLine(MoreInWorld, Gold, e, words) ==
              Quote(MoreInWorld, Gold, [Stem(Rises, Masculine), InManner, Dramatic], None,
                    Spoken(Float(1910.0), words), PerOunce)
  {
    ZeroCloseExample(market(Symbol(Gold)).info.value);
  }

  /** As written: the same closes for Bitcoin, whose line speaks its change,
      make the whole report raise. */
  lemma ZeroCloseAbortsReport(ta: Clock, ny: Clock, market: string -> MarketData, words: int -> string)
    requires market(Symbol(Bitcoin)).info.Some? && market(Symbol(Bitcoin)).info.value.regularMarketPrice.None?
    requires market(Symbol(Bitcoin)).history == Some([1900.0, 0.0, 1910.0])
    ensures MarketReport(ta, ny, market, words).Failure?
  {
    ZeroCloseExample(market(Symbol(Bitcoin)).info.value);
    var results := Results(market, IsNyOpen(ny));
    ResultsAreFetched(market, IsNyOpen(ny));
    assert FetchSymbol(Bitcoin, IsNyOpen(ny)) == Symbol(Bitcoin);
    assert results[Bitcoin].pct == Some(Infinity(true));
    assert Cryptos[0] == Bitcoin;
    assert !AllRenderable(Crypto, Cryptos, results);
  }

  /** A line of any block is a line of the report. */
  lemma InTolerantReport(ta: Clock, ny: Clock, results: map<Instrument, Entry>, words: int -> string, line: Line)
    requires Covers(results)
    requires line in IsraelLines(ta, results, words) ||
             line in QuoteLines(World, UsIndices, results, words) ||
             line in QuoteLines(Equities, Stocks, results, words) ||
             line in QuoteLines(Crypto, Cryptos, results, words) ||
             line in QuoteLines(MoreInWorld, MoreInWorldInstruments, results, words)
    ensures line in TolerantReport(ta, ny, results, words)
  {
  }

  /** An instrument whose line cannot render gets a "no data" line in its
      block. */
  lemma NoDataInBlock(s: Section, results: map<Instrument, Entry>, words: int -> string, k: nat)
    requires Covers(results) && k < |ListOf(s)|
    requires !Renderable(s, results[ListOf(s)[k]])
    ensures NoData(s, ListOf(s)[k]) in QuoteLines(s, ListOf(s), results, words)
  {
    assert QuoteLines(s, ListOf(s), results, words)[k] == NoData(s, ListOf(s)[k]);
  }

  /** A shown Tel Aviv index without a price gets a "no data" line in the
      Israel block. */
  lemma NoDataInIsrael(ta: Clock, results: map<Instrument, Entry>, words: int -> string, k: nat)
    requires Covers(results) && k < 2 && TaSessionAt(ta) != TaBeforeOpen
    requires results[IsraeliIndices[k]].price.None?
    ensures NoData(Israel, IsraeliIndices[k]) in IsraelLines(ta, results, words)
  {
    var ls := IsraelLines(ta, results, words);
    if TaSessionAt(ta) == TaClosed {
      assert ls[2 + k] == NoData(Israel, IsraeliIndices[k]);
    } else {
      NoDataInBlock(Israel, results, words, k);
      assert ls == [Title(Israel)] + QuoteLines(Israel, IsraeliIndices, results, words);
    }
  }

  /** Corrected: an instrument the report shows but has no price for gets a
      "no data" line in its own block, and the rest of the report stands. */
  lemma MissingDataGetsNoDataLine(ta: Clock, ny: Clock, results: map<Instrument, Entry>,
                                  words: int -> string, i: Instrument)
    requires Covers(results)
    requires Shown(i, ta) && results[i].price.None?
    ensures NoData(Home(i).0, i) in TolerantReport(ta, ny, results, words)
    ensures Titles(TolerantReport(ta, ny, results, words)) == [Israel, World, Equities, Crypto, MoreInWorld]
  {
    BlocksInOrder(ta, ny, results, words);
    var (s, k) := Home(i);
    if s == Israel {
      NoDataInIsrael(ta, results, words, k);
    } else {
      NoDataInBlock(s, results, words, k);
    }
    InTolerantReport(ta, ny, results, words, NoData(s, i));
  }

  /** The block raises the exception of its first line that cannot be
      rendered. */
  lemma BlockErrorFirst(s: Section, names: seq<Instrument>, results: map<Instrument, Entry>, k: nat)
    requires Covers(results)
    requires k < |names| && AllRenderable(s, names[..k], results)
    requires !Renderable(s, results[names[k]])
    ensures BlockError(s, names, results) == LineError(s, results[names[k]])
  {
    BlockErrorAt(s, names, results, k);
    assert names[k..][0] == names[k];
  }

  /** One quote line, evaluated as its f-string is: the direction, then the
      spoken change (which raises inside the verbaliser when it is not
      finite), then the spoken price. */
  method EmitLine(s: Section, name: Instrument, d: Entry, words: int -> string)
    returns (r: Result<Line, ReportError>)
    ensures Renderable(s, d) ==> r == Success(QuoteLine(s, name, d, words))
    ensures !Renderable(s, d) ==> r == Failure(LineError(s, d).value)
  {
    var direction := FormatDirection(d.pct, d.trend, Threshold(s), IsFemale(s, name));
    var pctWords: Option<string> := None;
    if s != MoreInWorld {
      if d.pct.None? {
        return Failure(TypeError);
      }
      if !d.pct.value.Finite? {
        return Failure(ValueError);
      }
      var w := NumberToHebrewWords(Float(AbsReal(d.pct.value.x)), words);
      pctWords := Some(w);
    }
    if d.price.None? {
      return Failure(TypeError);
    }
    var priceWords := NumberToHebrewWords(Float(d.price.value), words);
    r := Success(Quote(s, name, direction, pctWords, priceWords, UnitOf(s, name, d)));
  }

  /** Extending a block by one instrument appends that instrument's line. */
  lemma QuoteLinesStep(s: Section, names: seq<Instrument>, results: map<Instrument, Entry>,
                       words: int -> string, k: nat)
    requires Covers(results) && k < |names|
    ensures QuoteLines(s, names[..k + 1], results, words) ==
              QuoteLines(s, names[..k], results, words) + [LineOrNoData(s, names[k], results[names[k]], words)]
  {
    var longer := QuoteLines(s, names[..k + 1], results, words);
    var prefix := QuoteLines(s, names[..k], results, words);
    var shorter := prefix + [LineOrNoData(s, names[k], results[names[k]], words)];
    assert |longer| == k + 1 == |shorter|;
    forall j | 0 <= j < k + 1 ensures longer[j] == shorter[j] {
      if j < k {
        assert names[..k + 1][j] == names[..k][j];
        assert shorter[j] == prefix[j];
      } else {
        assert names[..k + 1][j] == names[k];
      }
    }
  }

  /** Extending a block by one instrument adds that instrument's line to
      what must render. */
  lemma AllRenderableStep(s: Section, names: seq<Instrument>, results: map<Instrument, Entry>, k: nat)
    requires Covers(results) && k < |names|
    ensures AllRenderable(s, names[..k + 1], results) <==>
              AllRenderable(s, names[..k], results) && Renderable(s, results[names[k]])
  {
    assert names[..k + 1] == names[..k] + [names[k]];
  }

  /** One loop over a block's instruments, appending a line each. */
  method EmitQuotes(s: Section, names: seq<Instrument>, results: map<Instrument, Entry>,
                    words: int -> string) returns (r: Result<seq<Line>, ReportError>)
    requires Covers(results)
    ensures r == Outcome(BlockError(s, names, results), QuoteLines(s, names, results, words))
  {
    var lines: seq<Line> := [];
    for k := 0 to |names|
      invariant AllRenderable(s, names[..k], results)
      invariant lines == QuoteLines(s, names[..k], results, words)
    {
      var line := EmitLine(s, names[k], results[names[k]], words);
      if line.Failure? {
        BlockErrorFirst(s, names, results, k);
        return Failure(line.error);
      }
      QuoteLinesStep(s, names, results, words, k);
      AllRenderableStep(s, names, results, k);
      lines := lines + [line.value];
    }
    assert names[..|names|] == names;
    r := Success(lines);
  }

  /** The Israel block as `get_market_report` writes it. */
  method EmitIsrael(ta: Clock, results: map<Instrument, Entry>, words: int -> string)
    returns (r: Result<seq<Line>, ReportError>)
    requires Covers(results)
    ensures r == Outcome(IsraelError(ta, results), IsraelLines(ta, results, words))
  {
    var session := TaSessionAt(ta);
    if session == TaBeforeOpen {
      var hm := Countdown(ta);
      var hoursWords := NumberToHebrewWords(Int(hm.0), words);
      var minutesWords := NumberToHebrewWords(Int(hm.1), words);
      r := Success([Title(Israel)] + [TaCountdown(hoursWords, minutesWords)]);
    } else if session == TaClosed {
      var d125 := results[Ta125];
      var d35 := results[Ta35];
      if d125.pct.None? || d35.pct.None? {
        return Failure(TypeError);
      }
      var rose125 := IsPositive(d125.pct.value);
      var rose35 := IsPositive(d35.pct.value);
      if !d125.pct.value.Finite? {
        return Failure(ValueError);
      }
      var pct125 := NumberToHebrewWords(Float(AbsReal(d125.pct.value.x)), words);
      if d125.price.None? {
        return Failure(TypeError);
      }
      var level125 := NumberToHebrewWords(Float(d125.price.value), words);
      if !d35.pct.value.Finite? {
        return Failure(ValueError);
      }
      var pct35 := NumberToHebrewWords(Float(AbsReal(d35.pct.value.x)), words);
      if d35.price.None? {
        return Failure(TypeError);
      }
      var level35 := NumberToHebrewWords(Float(d35.price.value), words);
      assert ClosedIndexLine(Ta125, d125, words) == TaClosedIndex(Ta125, rose125, pct125, level125);
      assert ClosedIndexLine(Ta35, d35, words) == TaClosedIndex(Ta35, rose35, pct35, level35);
      assert IsraelLines(ta, results, words) ==
        [Title(Israel)] + [TaClosedNote, ClosedIndexLine(Ta125, d125, words), ClosedIndexLine(Ta35, d35, words)];
      r := Success([Title(Israel)] + [TaClosedNote, TaClosedIndex(Ta125, rose125, pct125, level125),
                                      TaClosedIndex(Ta35, rose35, pct35, level35)]);
    } else {
      var quotes := EmitQuotes(Israel, IsraeliIndices, results, words);
      if quotes.Failure? {
        return Failure(quotes.error);
      }
      r := Success([Title(Israel)] + quotes.value);
    }
  }

  /** The loop of `get_market_report` that fills `results`, one entry per
      key of `all_tickers`. */
  method FetchResults(market: string -> MarketData, isNyOpen: bool)
    returns (results: map<Instrument, Entry>)
    ensures results == Results(market, isNyOpen)
  {
    results := map[];
    for k := 0 to |AllInstruments|
      invariant forall i :: i in results <==> i in AllInstruments[..k]
      invariant forall i :: i in results ==> results[i] == EntryFor(i, market, isNyOpen)
    {
      var name := AllInstruments[k];
      var symbol: string;
      var isIndex: bool;
      if IsUsIndex(name) {
        if isNyOpen {
          symbol, isIndex := IndexSymbol(name), true;
        } else {
          symbol, isIndex := EtfSymbol(name), false;
        }
      } else {
        symbol, isIndex := Symbol(name), false;
      }
      match GetTickerData(market(symbol))
      case Success(d) =>
        results := results[name := Entry(d.pct, d.price, d.trend, d.isPreMarket, d.isAfterHours, isIndex)];
      case Failure(_) =>
        results := results[name := Entry(None, None, None, false, false, isIndex)];
      assert AllInstruments[..k + 1] == AllInstruments[..k] + [name];
    }
    assert AllInstruments[..|AllInstruments|] == AllInstruments;
    AllListed();
  }

  /** `get_market_report`: fill `results`, then append the blocks to the
      report in order; the first exception ends it. */
  method GetMarketReport(ta: Clock, ny: Clock, market: string -> MarketData, words: int -> string)
    returns (r: Result<seq<Line>, ReportError>)
    ensures r == MarketReport(ta, ny, market, words)
  {
    var isNyOpen := IsNyOpen(ny);
    var hourWords := NumberToHebrewWords(Int(ta.hour), words);
    var minuteWords := NumberToHebrewWords(Int(ta.minute), words);
    var report := [Heading(hourWords, minuteWords, SegmentText(TimeSegment(ta.hour)))];
    var results := FetchResults(market, isNyOpen);
    assert MarketReport(ta, ny, market, words) ==
      Outcome(ReportFailure(ta, results), TolerantReport(ta, ny, results, words));

    var israel := EmitIsrael(ta, results, words);
    if israel.Failure? {
      assert ReportFailure(ta, results) == Some(israel.error);
      return Failure(israel.error);
    }
    report := report + israel.value;

    report := report + [Title(World), UsNote(UsSessionAt(ny))];
    var world := EmitQuotes(World, UsIndices, results, words);
    if world.Failure? {
      assert ReportFailure(ta, results) == Some(world.error);
      return Failure(world.error);
    }
    report := report + world.value;

    report := report + [Title(Equities)];
    var stocks := EmitQuotes(Equities, Stocks, results, words);
    if stocks.Failure? {
      assert ReportFailure(ta, results) == Some(stocks.error);
      return Failure(stocks.error);
    }
    report := report + stocks.value;

    report := report + [Title(Crypto)];
    var crypto := EmitQuotes(Crypto, Cryptos, results, words);
    if crypto.Failure? {
      assert ReportFailure(ta, results) == Some(crypto.error);
      return Failure(crypto.error);
    }
    report := report + crypto.value;

    report := report + [Title(MoreInWorld)];
    var more := EmitQuotes(MoreInWorld, MoreInWorldInstruments, results, words);
    if more.Failure? {
      assert ReportFailure(ta, results) == Some(more.error);
      return Failure(more.error);
    }
    report := report + more.value;
    assert report == TolerantReport(ta, ny, results, words);
    r := Success(report);
  }
}
