/**
 * The sensors (custom_components/cryptocom/sensor.py): how the platform setup
 * builds the sensor list, how currency sensors are named and iconed, and the
 * values of the last-price, simple-moving-average and virtual-balance sensors.
 * Each sensor's value is computed from the snapshot its coordinator holds,
 * which is passed in; rendering a number to text is the facade's rounding.
 */
module Sensors {
  import opened Wrappers
  import opened PyStrings
  import opened MarketSymbols
  import opened CcxtExchange
  import opened Data

  // ---------------------------------------------------------------------------
  // The sensors the platform creates
  // ---------------------------------------------------------------------------

  /** Which balance dictionary a virtual-balance sensor sums. */
  datatype BalanceProperty = Total | Free

  /** `coordinator.data[self._property]`: the balance dictionary the sensor reads. */
  function Select(b: Balance, property: BalanceProperty): seq<Holding> {
    match property
    case Total => b.total
    case Free => b.free
  }

  datatype Sensor =
    | VirtualBalanceSensor(title: string, property: BalanceProperty)
    | LastPriceSensor(symbol: MarketSymbol)
    | SimpleMovingAverage(symbol: MarketSymbol, period: nat)

  const VirtualBalanceLabel: string := "Virtual Balance"
  const FreeBalanceLabel: string := "Free Balance"
  const LastPricePostfix: string := "last_price"

  /** The postfix of a moving-average sensor: "sma_{period}_1h". */
  function SmaPostfix(period: nat): string {
    "sma_" + NatToString(period) + "_1h"
  }

  /** The `unique_id` (and `name`) of a currency sensor: the symbol's key, '_', the postfix. */
  function CurrencySensorId(symbol: MarketSymbol, postfix: string): string {
    symbol.Name() + "_" + postfix
  }

  function Postfix(s: Sensor): string
    requires !s.VirtualBalanceSensor?
  {
    match s
    case LastPriceSensor(_) => LastPricePostfix
    case SimpleMovingAverage(_, period) => SmaPostfix(period)
  }

  /** The `name` property of each kind of sensor. */
  function Name(s: Sensor): string {
    match s
    case VirtualBalanceSensor(title, _) => "Crypto.com " + title
    case LastPriceSensor(symbol) => CurrencySensorId(symbol, Postfix(s))
    case SimpleMovingAverage(symbol, _) => CurrencySensorId(symbol, Postfix(s))
  }

  /** The `unique_id` property: the name for currency sensors, the name lower-cased with '_' for ' ' for balance sensors. */
  function UniqueId(s: Sensor): string {
    match s
    case VirtualBalanceSensor(_, _) => Replace(Lower(Name(s)), ' ', '_')
    case LastPriceSensor(symbol) => CurrencySensorId(symbol, Postfix(s))
    case SimpleMovingAverage(symbol, _) => CurrencySensorId(symbol, Postfix(s))
  }

  /** The icon of a currency sensor, chosen by the base currency. */
  function Icon(symbol: MarketSymbol): string {
    if symbol.base == "EUR" then "mdi:currency-eur"
    else if symbol.base == "USD" then "mdi:currency-usd"
    else if symbol.base == "BTC" then "mdi:currency-btc"
    else "mdi:cash"
  }

  /** A currency sensor's name and unique id agree, and both begin with the symbol's key and '_'. */
  lemma CurrencySensorNameIsId(s: Sensor)
    requires !s.VirtualBalanceSensor?
    ensures Name(s) == UniqueId(s)
    ensures Name(s)[..|s.symbol.Name()| + 1] == s.symbol.Name() + "_"
  {
    assert (s.symbol.Name() + "_" + Postfix(s))[..|s.symbol.Name()| + 1] == s.symbol.Name() + "_";
  }

  /** A balance sensor's unique id is its name with no upper-case letter and no space, of the same length. */
  lemma VirtualBalanceIdShape(s: Sensor)
    requires s.VirtualBalanceSensor?
    ensures |UniqueId(s)| == |Name(s)|
    ensures forall i :: 0 <= i < |UniqueId(s)| ==> UniqueId(s)[i] != ' ' && !IsUpper(UniqueId(s)[i])
    ensures forall i :: 0 <= i < |UniqueId(s)| ==> UniqueId(s)[i] == (if Name(s)[i] == ' ' then '_' else LowerChar(Name(s)[i]))
  {
  }

  /** Different periods give different postfixes, and none of them is the last-price postfix. */
  lemma SmaPostfixInjective(p: nat, q: nat)
    ensures SmaPostfix(p) == SmaPostfix(q) ==> p == q
    ensures SmaPostfix(p) != LastPricePostfix
  {
    var a, b := SmaPostfix(p), SmaPostfix(q);
    assert a[0] == 's';
    if a == b {
      var da, db := NatToString(p), NatToString(q);
      assert |da| == |db|;
      assert da == a[4..4 + |da|] && db == b[4..4 + |db|];
      DigitsValueOfNatToString(p);
      DigitsValueOfNatToString(q);
    }
  }

  /** Two currency sensors of one symbol with different postfixes get different unique ids. */
  lemma CurrencySensorIdsDistinct(symbol: MarketSymbol, postfix1: string, postfix2: string)
    requires postfix1 != postfix2
    ensures CurrencySensorId(symbol, postfix1) != CurrencySensorId(symbol, postfix2)
  {
    var prefix := symbol.Name() + "_";
    assert (prefix + postfix1)[|prefix|..] == postfix1;
    assert (prefix + postfix2)[|prefix|..] == postfix2;
  }

  lemma SensorExamples()
    ensures Name(LastPriceSensor(MarketSymbol("BTC", "USD"))) == "btc_usd_last_price"
    ensures SmaPostfix(25) == "sma_25_1h"
    ensures Icon(MarketSymbol("BTC", "EUR")) == "mdi:currency-btc"
    ensures Icon(MarketSymbol("ETH", "USD")) == "mdi:cash"
  {
    RenderExamples();
    assert NatToString(25) == NatToString(2) + [DigitChar(5)];
  }

  /** The icon depends on the base currency only. */
  lemma IconDependsOnBase(s: MarketSymbol, t: MarketSymbol)
    requires s.base == t.base
    ensures Icon(s) == Icon(t)
  {
  }

  // ---------------------------------------------------------------------------
  // LastPriceSensor.native_value
  // ---------------------------------------------------------------------------

  /**
   * No value when the ticker map has no price for the symbol or the price is
   * zero (Python's falsy test); otherwise the price rounded to the symbol's step.
   */
  function LastPriceValue(data: CryptoComData, tickers: map<string, Ticker>, symbol: MarketSymbol): (r: Option<string>)
    reads data
    ensures r.None? <==> symbol.CcxtSymbol() !in tickers || tickers[symbol.CcxtSymbol()].last == 0.0
    ensures r.Some? ==> r.value == data.RoundWithPrecision(tickers[symbol.CcxtSymbol()].last, symbol)
  {
    var lastPrice := QueryLastPrice(tickers, symbol);
    if lastPrice.None? || lastPrice.value == 0.0 then None
    else Some(data.RoundWithPrecision(lastPrice.value, symbol))
  }

  // ---------------------------------------------------------------------------
  // SimpleMovingAverage.native_value
  // ---------------------------------------------------------------------------

  /** One OHLCV row; field 3 of the row is `low`. */
  datatype Candle = Candle(timestamp: int, open: real, high: real, low: real, close: real, volume: real)

  /** `data[-n:]` for n > 0: the last n items, or all of them when there are fewer. */
  function TailSlice<T>(data: seq<T>, n: nat): (r: seq<T>)
    requires n > 0
    ensures |r| == if n <= |data| then n else |data|
    ensures r == data[|data| - |r|..]
  {
    if n <= |data| then data[|data| - n..] else data
  }

  /** `[a[3] for a in candles]`. */
  function Lows(candles: seq<Candle>): (r: seq<real>)
    ensures |r| == |candles|
    ensures forall i :: 0 <= i < |r| ==> r[i] == candles[i].low
  {
    seq(|candles|, i requires 0 <= i < |candles| => candles[i].low)
  }

  function Sum(xs: seq<real>): real
    decreases |xs|
  {
    if |xs| == 0 then 0.0 else Sum(xs[..|xs| - 1]) + xs[|xs| - 1]
  }

  /**
   * The moving average over the last `period` candles: absent unless a full
   * window is cached, never a partial average.
   */
  function SmaValue(candles: seq<Candle>, period: nat): (r: Option<real>)
    requires period > 0
    ensures r.None? <==> |candles| < period
    ensures r.Some? ==> r.value == Sum(Lows(candles[|candles| - period..])) / (period as real)
  {
    var window := TailSlice(candles, period);
    if |window| == period then
      var lows := Lows(window);
      Some(Sum(lows) / (|lows| as real))
    else None
  }

  /** The sensor's value: the moving average rounded to the symbol's step, when there is one. */
  function SmaNativeValue(data: CryptoComData, candles: seq<Candle>, symbol: MarketSymbol, period: nat): (r: Option<string>)
    requires period > 0
    reads data
    ensures r.None? <==> |candles| < period
    ensures r.Some? ==> r.value == data.RoundWithPrecision(SmaValue(candles, period).value, symbol)
  {
    match SmaValue(candles, period)
    case None => None
    case Some(v) => Some(data.RoundWithPrecision(v, symbol))
  }

  lemma {:induction false} SumBounds(xs: seq<real>, lo: real, hi: real)
    requires forall i :: 0 <= i < |xs| ==> lo <= xs[i] <= hi
    ensures |xs| as real * lo <= Sum(xs) <= |xs| as real * hi
    decreases |xs|
  {
    if |xs| > 0 {
      var n := (|xs| - 1) as real;
      SumBounds(xs[..|xs| - 1], lo, hi);
      assert Sum(xs) == Sum(xs[..|xs| - 1]) + xs[|xs| - 1];
      assert |xs| as real * lo == n * lo + lo;
      assert |xs| as real * hi == n * hi + hi;
    }
  }

  lemma DivideBounds(s: real, n: real, lo: real, hi: real)
    requires n > 0.0
    requires n * lo <= s <= n * hi
    ensures lo <= s / n <= hi
  {
    var avg := s / n;
    assert avg * n == s;
    assert (avg - lo) * n == s - n * lo;
    assert (hi - avg) * n == n * hi - s;
    if avg < lo { MulNegPos(avg - lo, n); }
    if avg > hi { MulNegPos(hi - avg, n); }
  }

  lemma MulNegPos(x: real, y: real)
    requires x < 0.0 && y > 0.0
    ensures x * y < 0.0
  {
  }

  /** The average lies between the lowest and the highest `low` of the window. */
  lemma SmaWithinWindow(candles: seq<Candle>, period: nat, lo: real, hi: real)
    requires period > 0 && |candles| >= period
    requires forall i :: |candles| - period <= i < |candles| ==> lo <= candles[i].low <= hi
    ensures SmaValue(candles, period).Some?
    ensures lo <= SmaValue(candles, period).value <= hi
  {
    var lows := Lows(candles[|candles| - period..]);
    SumBounds(lows, lo, hi);
    DivideBounds(Sum(lows), period as real, lo, hi);
  }

  /** Candles older than the window do not change the average. */
  lemma SmaIgnoresOlderCandles(older: seq<Candle>, candles: seq<Candle>, period: nat)
    requires period > 0
    requires |candles| >= period
    ensures SmaValue(older + candles, period) == SmaValue(candles, period)
  {
    var all := older + candles;
    var window := candles[|candles| - period..];
    assert all[|all| - period..] == window;
    assert SmaValue(all, period) == Some(Sum(Lows(window)) / (period as real));
    assert SmaValue(candles, period) == Some(Sum(Lows(window)) / (period as real));
  }

  // ---------------------------------------------------------------------------
  // VirtualBalanceSensor.native_value
  // ---------------------------------------------------------------------------

  /** `total.get('USD', 0)`. */
  function UsdAmount(holdings: seq<Holding>): real {
    Lookup(holdings, "USD").GetOr(0.0)
  }

  /** What one entry adds: nothing for USD or without a "{currency}/USD" ticker, else last × amount. */
  function Contribution(h: Holding, tickers: map<string, Ticker>): real {
    if h.currency == "USD" then 0.0
    else if h.currency + "/USD" in tickers then tickers[h.currency + "/USD"].last * h.amount
    else 0.0
  }

  /** The sum of the contributions of all entries. */
  function Converted(holdings: seq<Holding>, tickers: map<string, Ticker>): real
    decreases |holdings|
  {
    if |holdings| == 0 then 0.0
    else Converted(holdings[..|holdings| - 1], tickers) + Contribution(holdings[|holdings| - 1], tickers)
  }

  /** Python's truth value of the tickers coordinator's data: absent or empty is false. */
  predicate HasTickers(tickers: Option<map<string, Ticker>>) {
    tickers.Some? && |tickers.value| > 0
  }

  /** The virtual balance: absent without ticker data, else the USD amount plus every converted entry. */
  function VirtualBalance(holdings: seq<Holding>, tickers: Option<map<string, Ticker>>): Option<real> {
    if HasTickers(tickers) then Some(UsdAmount(holdings) + Converted(holdings, tickers.value)) else None
  }

  /** The accumulation loop of `native_value` (the two-decimal rendering is not modelled). */
  method VirtualBalanceValue(property: BalanceProperty, balance: Balance, tickers: Option<map<string, Ticker>>) returns (r: Option<real>)
    ensures r == VirtualBalance(Select(balance, property), tickers)
    ensures r.None? <==> !HasTickers(tickers)
  {
    var holdings := Select(balance, property);
    var virtualTotal := Lookup(holdings, "USD").GetOr(0.0);
    if HasTickers(tickers) {
      var ts := tickers.value;
      for i := 0 to |holdings|
        invariant virtualTotal == UsdAmount(holdings) + Converted(holdings[..i], ts)
      {
        assert holdings[..i + 1][..i] == holdings[..i];
        var currency := holdings[i].currency;
        if currency == "USD" {
          continue;
        }
        if currency + "/USD" in ts {
          virtualTotal := virtualTotal + ts[currency + "/USD"].last * holdings[i].amount;
        }
      }
      assert holdings[..|holdings|] == holdings;
      return Some(virtualTotal);
    }
    return None;
  }

  /** The conversion is additive over splitting the dictionary, so the order of the entries does not matter. */
  lemma {:induction false} ConvertedAppend(a: seq<Holding>, b: seq<Holding>, tickers: map<string, Ticker>)
    ensures Converted(a + b, tickers) == Converted(a, tickers) + Converted(b, tickers)
    ensures Converted(a + b, tickers) == Converted(b + a, tickers)
    decreases |b|
  {
    if |b| == 0 {
      assert a + b == a;
      assert b + a == a;
      ConvertedPrepend(a, b, tickers);
    } else {
      assert (a + b)[..|a + b| - 1] == a + b[..|b| - 1];
      ConvertedAppend(a, b[..|b| - 1], tickers);
      ConvertedPrepend(a, b, tickers);
    }
  }

  lemma {:induction false} ConvertedPrepend(a: seq<Holding>, b: seq<Holding>, tickers: map<string, Ticker>)
    ensures Converted(b + a, tickers) == Converted(b, tickers) + Converted(a, tickers)
    decreases |a|
  {
    if |a| == 0 {
      assert b + a == b;
    } else {
      assert (b + a)[..|b + a| - 1] == b + a[..|a| - 1];
      ConvertedPrepend(a[..|a| - 1], b, tickers);
    }
  }

  /** USD entries and entries without a ticker add nothing. */
  lemma ConvertedSkips(holdings: seq<Holding>, h: Holding, tickers: map<string, Ticker>)
    requires h.currency == "USD" || h.currency + "/USD" !in tickers
    ensures Converted(holdings + [h], tickers) == Converted(holdings, tickers)
    ensures Converted([h] + holdings, tickers) == Converted(holdings, tickers)
  {
    assert (holdings + [h])[..|holdings|] == holdings;
    assert Converted([h], tickers) == 0.0 by { assert [h][..0] == []; }
    ConvertedPrepend(holdings, [h], tickers);
  }

  /** With non-negative amounts and prices the virtual balance is at least the USD amount. */
  lemma {:induction false} ConvertedNonNegative(holdings: seq<Holding>, tickers: map<string, Ticker>)
    requires forall i :: 0 <= i < |holdings| ==> holdings[i].amount >= 0.0
    requires forall k :: k in tickers ==> tickers[k].last >= 0.0
    ensures Converted(holdings, tickers) >= 0.0
    decreases |holdings|
  {
    if |holdings| > 0 {
      ConvertedNonNegative(holdings[..|holdings| - 1], tickers);
      var h := holdings[|holdings| - 1];
      if h.currency != "USD" && h.currency + "/USD" in tickers {
        assert tickers[h.currency + "/USD"].last * h.amount >= 0.0;
      }
    }
  }

  lemma VirtualBalanceExample()
    ensures VirtualBalance([Holding("USD", 100.0), Holding("BTC", 2.0), Holding("ETH", 1.0)],
                           Some(map["BTC/USD" := Ticker(20000.0)])) == Some(40100.0)
    ensures VirtualBalance([Holding("USD", 100.0)], Some(map[])) == None
  {
    var hs := [Holding("USD", 100.0), Holding("BTC", 2.0), Holding("ETH", 1.0)];
    var ts := map["BTC/USD" := Ticker(20000.0)];
    assert "ETH" + "/USD" !in ts by { assert ("ETH" + "/USD")[0] == 'E'; }
    assert "BTC" + "/USD" == "BTC/USD";
    assert Converted(hs[..1], ts) == 0.0 by { assert hs[..1][..0] == []; }
    assert Converted(hs[..2], ts) == 40000.0 by { assert hs[..2][..1] == hs[..1]; }
    assert Converted(hs, ts) == 40000.0 by { assert hs[..2] == hs[..|hs| - 1]; }
    assert UsdAmount(hs) == 100.0;
  }

  // ---------------------------------------------------------------------------
  // async_setup_platform
  // ---------------------------------------------------------------------------

  /** The sensors of one parsed symbol: the last price, then the four moving averages. */
  function SymbolSensors(symbol: MarketSymbol): seq<Sensor> {
    [LastPriceSensor(symbol), SimpleMovingAverage(symbol, 25), SimpleMovingAverage(symbol, 50),
     SimpleMovingAverage(symbol, 100), SimpleMovingAverage(symbol, 200)]
  }

  /** `MarketSymbol.try_from_string` applied to each configured string, in order. */
  function ParseAll(configs: seq<string>): (ps: seq<Option<MarketSymbol>>)
    ensures |ps| == |configs|
    ensures forall i :: 0 <= i < |configs| ==> ps[i] == TryFromString(configs[i])
  {
    seq(|configs|, i requires 0 <= i < |configs| => TryFromString(configs[i]))
  }

  /**
   * What one configured string contributes, given what parsing it gave: nothing
   * when it does not parse; the last-price sensor alone when getting its
   * candlestick coordinator fails (it is appended before that call); otherwise
   * all five.
   */
  function ParsedSensors(parsed: Option<MarketSymbol>, candlesFail: MarketSymbol -> bool): seq<Sensor> {
    match parsed
    case None => []
    case Some(symbol) => if candlesFail(symbol) then [LastPriceSensor(symbol)] else SymbolSensors(symbol)
  }

  /** The contributions of all configured strings, in configuration order. */
  function AllConfigSensors(parsed: seq<Option<MarketSymbol>>, candlesFail: MarketSymbol -> bool): seq<Sensor>
    decreases |parsed|
  {
    if |parsed| == 0 then []
    else AllConfigSensors(parsed[..|parsed| - 1], candlesFail) + ParsedSensors(parsed[|parsed| - 1], candlesFail)
  }

  /** The two balance sensors, present only with a balance coordinator. */
  function BalanceSensors(hasBalanceCoordinator: bool): seq<Sensor> {
    if hasBalanceCoordinator then [VirtualBalanceSensor(VirtualBalanceLabel, Total), VirtualBalanceSensor(FreeBalanceLabel, Free)]
    else []
  }

  /** The sensor list `async_setup_platform` hands to the platform. */
  method AsyncSetupPlatform(hasBalanceCoordinator: bool, configs: seq<string>, candlesFail: MarketSymbol -> bool)
    returns (sensors: seq<Sensor>)
    ensures sensors == BalanceSensors(hasBalanceCoordinator) + AllConfigSensors(ParseAll(configs), candlesFail)
    ensures hasBalanceCoordinator ==> sensors[..2] == [VirtualBalanceSensor(VirtualBalanceLabel, Total), VirtualBalanceSensor(FreeBalanceLabel, Free)]
  {
    sensors := [];
    if hasBalanceCoordinator {
      sensors := sensors + [VirtualBalanceSensor(VirtualBalanceLabel, Total)];
      sensors := sensors + [VirtualBalanceSensor(FreeBalanceLabel, Free)];
    }
    sensors := AppendAllConfigSensors(sensors, configs, candlesFail);
  }

  /** The setup loop over the configured strings; each string's `try` block is `AppendConfigSensors`. */
  method AppendAllConfigSensors(sensors: seq<Sensor>, configs: seq<string>, candlesFail: MarketSymbol -> bool)
    returns (result: seq<Sensor>)
    ensures result == sensors + AllConfigSensors(ParseAll(configs), candlesFail)
  {
    result := sensors;
    ghost var parsed := ParseAll(configs);
    for i := 0 to |configs|
      invariant result == sensors + AllConfigSensors(parsed[..i], candlesFail)
    {
      AllConfigSensorsStep(parsed, i, candlesFail);
      result := AppendConfigSensors(result, configs[i], candlesFail);
    }
    assert parsed[..|configs|] == parsed;
  }

  /**
   * The `try` block of the setup loop for one configured string: parse it, append
   * the last-price sensor, get the candlestick coordinator, append the four
   * moving averages. A failing step leaves what was appended before it.
   */
  method AppendConfigSensors(sensors: seq<Sensor>, config: string, candlesFail: MarketSymbol -> bool)
    returns (result: seq<Sensor>)
    ensures result == sensors + ParsedSensors(TryFromString(config), candlesFail)
  {
    result := sensors;
    var parsed := TryFromString(config);
    if parsed.None? {
      return;
    }
    var symbol := parsed.value;
    result := result + [LastPriceSensor(symbol)];
    if candlesFail(symbol) {
      return;
    }
    result := result + [SimpleMovingAverage(symbol, 25)];
    result := result + [SimpleMovingAverage(symbol, 50)];
    result := result + [SimpleMovingAverage(symbol, 100)];
    result := result + [SimpleMovingAverage(symbol, 200)];
  }

  lemma AllConfigSensorsStep(parsed: seq<Option<MarketSymbol>>, i: nat, candlesFail: MarketSymbol -> bool)
    requires i < |parsed|
    ensures AllConfigSensors(parsed[..i + 1], candlesFail) == AllConfigSensors(parsed[..i], candlesFail) + ParsedSensors(parsed[i], candlesFail)
  {
    assert parsed[..i + 1][..i] == parsed[..i];
  }

  /** Configured strings are handled one by one: a failing string does not stop the ones after it. */
  lemma {:induction false} AllConfigSensorsAppend(a: seq<Option<MarketSymbol>>, b: seq<Option<MarketSymbol>>, candlesFail: MarketSymbol -> bool)
    ensures AllConfigSensors(a + b, candlesFail) == AllConfigSensors(a, candlesFail) + AllConfigSensors(b, candlesFail)
    decreases |b|
  {
    if |b| == 0 {
      assert a + b == a;
    } else {
      assert (a + b)[..|a + b| - 1] == a + b[..|b| - 1];
      AllConfigSensorsAppend(a, b[..|b| - 1], candlesFail);
    }
  }

  /** Parsing a concatenation of configurations parses each part. */
  lemma ParseAllConcat(a: seq<string>, b: seq<string>)
    ensures ParseAll(a + b) == ParseAll(a) + ParseAll(b)
  {
    var ab := ParseAll(a + b);
    forall i | 0 <= i < |ab| ensures ab[i] == (ParseAll(a) + ParseAll(b))[i] {
      if i < |a| { assert (a + b)[i] == a[i]; } else { assert (a + b)[i] == b[i - |a|]; }
    }
  }

  /** A string that does not parse adds no sensor, wherever it stands in the configuration. */
  lemma UnparseableSkipped(a: seq<string>, bad: string, b: seq<string>, candlesFail: MarketSymbol -> bool)
    requires NoSeparator(bad)
    ensures AllConfigSensors(ParseAll(a + [bad] + b), candlesFail) == AllConfigSensors(ParseAll(a + b), candlesFail)
  {
    var pa, pb := ParseAll(a), ParseAll(b);
    ParseAllConcat(a + [bad], b);
    ParseAllConcat(a, [bad]);
    ParseAllConcat(a, b);
    assert ParseAll([bad]) == [None];
    var none: seq<Option<MarketSymbol>> := [None];
    assert AllConfigSensors(none, candlesFail) == [] by {
      assert none[..0] == [];
    }
    AllConfigSensorsAppend(pa + none, pb, candlesFail);
    AllConfigSensorsAppend(pa, none, candlesFail);
    AllConfigSensorsAppend(pa, pb, candlesFail);
  }

  /** The number of configured strings that parse. */
  function ParsedCount(parsed: seq<Option<MarketSymbol>>): nat
    decreases |parsed|
  {
    if |parsed| == 0 then 0
    else ParsedCount(parsed[..|parsed| - 1]) + (if parsed[|parsed| - 1].Some? then 1 else 0)
  }

  /** When no candlestick coordinator fails, each parsed symbol adds exactly five sensors. */
  lemma {:induction false} FiveSensorsPerSymbol(parsed: seq<Option<MarketSymbol>>, candlesFail: MarketSymbol -> bool)
    requires forall s :: !candlesFail(s)
    ensures |AllConfigSensors(parsed, candlesFail)| == 5 * ParsedCount(parsed)
    decreases |parsed|
  {
    if |parsed| > 0 {
      FiveSensorsPerSymbol(parsed[..|parsed| - 1], candlesFail);
    }
  }

  /** The five sensors of one symbol have pairwise different unique ids. */
  lemma SymbolSensorIdsDistinct(symbol: MarketSymbol)
    ensures forall i, j :: 0 <= i < j < |SymbolSensors(symbol)| ==>
              UniqueId(SymbolSensors(symbol)[i]) != UniqueId(SymbolSensors(symbol)[j])
  {
    var ss := SymbolSensors(symbol);
    forall i, j | 0 <= i < j < |ss| ensures UniqueId(ss[i]) != UniqueId(ss[j]) {
      if i == 0 {
        SmaPostfixInjective(ss[j].period, ss[j].period);
      } else {
        SmaPostfixInjective(ss[i].period, ss[j].period);
      }
      CurrencySensorIdsDistinct(symbol, Postfix(ss[i]), Postfix(ss[j]));
    }
  }
}
