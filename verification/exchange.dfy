/**
 * The remote exchange as the integration sees it through its client library:
 * the market list, the ticker map, the account balance and order submission.
 * The exchange's own state is held in fields; every call the integration makes
 * is appended, with its arguments and its answer, to `trace`, so that callers
 * can state which calls they make and in which order.
 */
module CcxtExchange {
  import opened Wrappers

  /** One entry of the market list: its wire-form symbol and its price step (e.g. 0.01). */
  datatype Market = Market(symbol: string, pricePrecision: real)

  /** The part of a ticker the integration reads: the last traded price. */
  datatype Ticker = Ticker(last: real)

  /** One currency entry of a balance dictionary, in the dictionary's iteration order. */
  datatype Holding = Holding(currency: string, amount: real)

  /** The two balance dictionaries the integration reads. */
  datatype Balance = Balance(free: seq<Holding>, total: seq<Holding>)

  /** An order as the exchange reports it. */
  datatype Order = Order(id: nat, symbol: string, status: string, amount: real, price: real)

  /** The status of an order that is final. */
  const Closed: string := "closed"

  /** `d.get(currency)` on a balance dictionary (the first entry with that key). */
  function Lookup(hs: seq<Holding>, currency: string): (r: Option<real>)
    ensures r.None? <==> forall k :: 0 <= k < |hs| ==> hs[k].currency != currency
    ensures r.Some? ==> exists k :: 0 <= k < |hs| && hs[k] == Holding(currency, r.value)
    decreases |hs|
  {
    if |hs| == 0 then None
    else if hs[0].currency == currency then Some(hs[0].amount)
    else Lookup(hs[1..], currency)
  }

  /** One interaction with the exchange, with what it answered. */
  datatype Event =
    | MarketsFetched(markets: seq<Market>)
    | TickersFetched(tickers: map<string, Ticker>)
    | BalanceFetched(balance: Balance)
    | TickerFetched(symbol: string, ticker: Option<Ticker>)
    | MarketBuySubmitted(symbol: string, amount: real, order: Order)
    | OrderClosed(order: Order)
    | LimitSellSubmitted(symbol: string, amount: real, price: real, clientOid: string, order: Order)
    | BalanceRefreshRequested

  class Exchange {
    /** What `fetch_markets` answers. */
    var markets: seq<Market>
    /** What `fetch_tickers` answers, keyed by wire-form symbol. */
    var tickers: map<string, Ticker>
    /** What `fetch_balance` answers. */
    var balance: Balance
    /** The identifier the next submitted order receives. */
    var nextOrderId: nat
    /** Every call made so far, oldest first. */
    var trace: seq<Event>

    constructor (markets: seq<Market>, tickers: map<string, Ticker>, balance: Balance)
      ensures this.markets == markets && this.tickers == tickers && this.balance == balance
      ensures nextOrderId == 0 && trace == []
    {
      this.markets := markets;
      this.tickers := tickers;
      this.balance := balance;
      nextOrderId := 0;
      trace := [];
    }

    method FetchMarkets() returns (ms: seq<Market>)
      modifies this`trace
      ensures ms == markets
      ensures trace == old(trace) + [MarketsFetched(ms)]
    {
      ms := markets;
      trace := trace + [MarketsFetched(ms)];
    }

    method FetchTickers() returns (ts: map<string, Ticker>)
      modifies this`trace
      ensures ts == tickers
      ensures trace == old(trace) + [TickersFetched(ts)]
    {
      ts := tickers;
      trace := trace + [TickersFetched(ts)];
    }

    method FetchBalance() returns (b: Balance)
      modifies this`trace
      ensures b == balance
      ensures trace == old(trace) + [BalanceFetched(b)]
    {
      b := balance;
      trace := trace + [BalanceFetched(b)];
    }

    /** `fetch_ticker(symbol)`: `None` stands for the exchange rejecting an unknown symbol. */
    method FetchTicker(symbol: string) returns (t: Option<Ticker>)
      modifies this`trace
      ensures t == (if symbol in tickers then Some(tickers[symbol]) else None)
      ensures trace == old(trace) + [TickerFetched(symbol, t)]
    {
      t := if symbol in tickers then Some(tickers[symbol]) else None;
      trace := trace + [TickerFetched(symbol, t)];
    }

    /** A market buy: the exchange assigns a new identifier; the order is not yet final. */
    method CreateMarketBuyOrder(symbol: string, amount: real) returns (o: Order)
      modifies this`trace, this`nextOrderId
      ensures o.id == old(nextOrderId) < nextOrderId
      ensures o.symbol == symbol && o.amount == amount && o.status != Closed
      ensures trace == old(trace) + [MarketBuySubmitted(symbol, amount, o)]
    {
      var fill := if symbol in tickers then tickers[symbol].last else 0.0;
      o := Order(nextOrderId, symbol, "open", amount, fill);
      nextOrderId := nextOrderId + 1;
      trace := trace + [MarketBuySubmitted(symbol, amount, o)];
    }

    /** A limit sell carrying the caller's client order id. */
    method CreateLimitSellOrder(symbol: string, amount: real, price: real, clientOid: string) returns (o: Order)
      modifies this`trace, this`nextOrderId
      ensures o.id == old(nextOrderId) < nextOrderId
      ensures o.symbol == symbol && o.amount == amount && o.price == price
      ensures trace == old(trace) + [LimitSellSubmitted(symbol, amount, price, clientOid, o)]
    {
      o := Order(nextOrderId, symbol, "open", amount, price);
      nextOrderId := nextOrderId + 1;
      trace := trace + [LimitSellSubmitted(symbol, amount, price, clientOid, o)];
    }
  }
}
