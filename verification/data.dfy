/**
 * The market and ticker cache (custom_components/cryptocom/data.py): the
 * coordinator that keeps the market list and the latest ticker map, the
 * precision lookup with its 0.01 fallback, the rounded last-price lookup,
 * and the facade that owns the exchange handle.
 *
 * Rounding a value to a precision step (`round_with_precision`) is not part of
 * this model; it is the function value `format` that both classes are given.
 */
module Data {
  import opened Wrappers
  import opened MarketSymbols
  import opened CcxtExchange

  /** The price step used when no market matches. */
  const DefaultPricePrecision: real := 0.01

  /** The index of the first market, in list order, whose symbol is `symbol`. */
  function FindMarket(markets: seq<Market>, symbol: string): (r: Option<nat>)
    ensures r.Some? ==> r.value < |markets| && markets[r.value].symbol == symbol
    ensures r.Some? ==> forall j :: 0 <= j < r.value ==> markets[j].symbol != symbol
    ensures r.None? ==> forall j :: 0 <= j < |markets| ==> markets[j].symbol != symbol
    decreases |markets|
  {
    if |markets| == 0 then None
    else if markets[0].symbol == symbol then Some(0)
    else match FindMarket(markets[1..], symbol)
      case None => None
      case Some(k) => Some(k + 1)
  }

  /** The price step of the first matching market, or the default when none matches. */
  function PricePrecision(markets: seq<Market>, symbol: string): real {
    match FindMarket(markets, symbol)
    case Some(i) => markets[i].pricePrecision
    case None => DefaultPricePrecision
  }

  /**
   * The tickers coordinator's `query_last_price`: the last price of the
   * symbol's wire form in the cached ticker map, absent when it has no entry.
   */
  function QueryLastPrice(tickers: map<string, Ticker>, symbol: MarketSymbol): (r: Option<real>)
    ensures r.None? <==> symbol.CcxtSymbol() !in tickers
    ensures r.Some? ==> r.value == tickers[symbol.CcxtSymbol()].last
  {
    if symbol.CcxtSymbol() in tickers then Some(tickers[symbol.CcxtSymbol()].last) else None
  }

  class CryptoComDataCoordinator {
    const exchange: Exchange
    /** `round_with_precision(value, precision)`. */
    const format: (real, real) -> string
    /** The cached market list; empty until the first successful fetch. */
    var markets: seq<Market>
    /** The ticker map of the latest update, keyed by wire-form symbol. */
    var tickers: map<string, Ticker>

    constructor (exchange: Exchange, format: (real, real) -> string)
      ensures this.exchange == exchange && this.format == format
      ensures markets == [] && tickers == map[]
    {
      this.exchange := exchange;
      this.format := format;
      markets := [];
      tickers := map[];
    }

    /** `_async_update_markets`: fetch the market list only while the cache is empty. */
    method UpdateMarkets()
      modifies this`markets, exchange`trace
      ensures old(|markets|) == 0 ==> markets == exchange.markets && exchange.trace == old(exchange.trace) + [MarketsFetched(markets)]
      ensures old(|markets|) != 0 ==> markets == old(markets) && exchange.trace == old(exchange.trace)
    {
      if |markets| == 0 {
        markets := exchange.FetchMarkets();
      }
    }

    /** `_async_update_data`: make sure the markets are loaded, then replace the ticker map wholesale. */
    method UpdateData()
      modifies this`markets, this`tickers, exchange`trace
      ensures tickers == exchange.tickers
      ensures old(|markets|) == 0 ==> markets == exchange.markets && exchange.trace == old(exchange.trace) + [MarketsFetched(markets), TickersFetched(tickers)]
      ensures old(|markets|) != 0 ==> markets == old(markets) && exchange.trace == old(exchange.trace) + [TickersFetched(tickers)]
    {
      UpdateMarkets();
      tickers := exchange.FetchTickers();
    }

    /** `fetch_price_precision`: the first market whose symbol is the wire form wins; otherwise 0.01. */
    method FetchPricePrecision(symbol: MarketSymbol) returns (p: real)
      ensures p == PricePrecision(markets, symbol.CcxtSymbol())
      ensures (forall j :: 0 <= j < |markets| ==> markets[j].symbol != symbol.CcxtSymbol()) ==> p == DefaultPricePrecision
      ensures forall i :: 0 <= i < |markets| && markets[i].symbol == symbol.CcxtSymbol() ==>
                (exists j :: 0 <= j <= i && markets[j].symbol == symbol.CcxtSymbol() && p == markets[j].pricePrecision)
    {
      var wire := symbol.CcxtSymbol();
      for i := 0 to |markets|
        invariant forall j :: 0 <= j < i ==> markets[j].symbol != wire
      {
        if markets[i].symbol != wire {
          continue;
        }
        return markets[i].pricePrecision;
      }
      return DefaultPricePrecision;
    }

    /** `fetch_last_price`: the rounded last price when the ticker map has the wire form, nothing otherwise. */
    method FetchLastPrice(symbol: MarketSymbol) returns (r: Option<string>)
      ensures r.None? <==> symbol.CcxtSymbol() !in tickers
      ensures r.Some? ==> r.value == format(tickers[symbol.CcxtSymbol()].last, PricePrecision(markets, symbol.CcxtSymbol()))
    {
      var precision := FetchPricePrecision(symbol);
      var ticker := if symbol.CcxtSymbol() in tickers then Some(tickers[symbol.CcxtSymbol()]) else None;
      if ticker.Some? {
        return Some(format(ticker.value.last, precision));
      }
      return None;
    }
  }

  /** The facade: owns the exchange handle, its own market list and the coordinator. */
  class CryptoComData {
    const exchange: Exchange
    const format: (real, real) -> string
    const coordinator: CryptoComDataCoordinator
    var markets: seq<Market>

    constructor (exchange: Exchange, format: (real, real) -> string)
      ensures this.exchange == exchange && this.format == format
      ensures coordinator.exchange == exchange && coordinator.format == format
      ensures fresh(coordinator) && coordinator.markets == [] && coordinator.tickers == map[]
      ensures markets == []
    {
      this.exchange := exchange;
      this.format := format;
      markets := [];
      coordinator := new CryptoComDataCoordinator(exchange, format);
    }

    /** `async_setup`: the facade's market list becomes exactly what the exchange lists. */
    method AsyncSetup()
      modifies this`markets, exchange`trace
      ensures markets == exchange.markets
      ensures exchange.trace == old(exchange.trace) + [MarketsFetched(markets)]
    {
      markets := exchange.FetchMarkets();
    }

    /** `round_with_precision(value, symbol)`: rounding to the symbol's price step. */
    function RoundWithPrecision(value: real, symbol: MarketSymbol): string
      reads this
    {
      format(value, PricePrecision(markets, symbol.CcxtSymbol()))
    }

    /**
     * `wait_until_order_closed`: returns the same order once the exchange reports
     * it final. The polling itself is not modelled; amount and price are whatever
     * the exchange reports.
     */
    method WaitUntilOrderClosed(order: Order) returns (closed: Order)
      modifies exchange`trace
      ensures closed.id == order.id && closed.symbol == order.symbol && closed.status == Closed
      ensures exchange.trace == old(exchange.trace) + [OrderClosed(closed)]
    {
      closed := order.(status := Closed);
      exchange.trace := exchange.trace + [OrderClosed(closed)];
    }

    /** `balance_coordinator.async_request_refresh()`. */
    method RequestBalanceRefresh()
      modifies exchange`trace
      ensures exchange.trace == old(exchange.trace) + [BalanceRefreshRequested]
    {
      exchange.trace := exchange.trace + [BalanceRefreshRequested];
    }
  }
}
