/**
 * The market-buy-then-limit-sell service
 * (custom_components/cryptocom/market_buy_and_limit_sell.py): convert the
 * percentages of the service call to fractions, spend a fraction of the free
 * USD balance on a market buy, wait for it to close, and place a limit sell of
 * the filled amount at the fill price marked up by the profit fraction.
 *
 * The renderings of floats (`str(x)`) and of the clock (`time.time()`) are
 * not modelled; they are the parameters `render` and `timestamp`.
 */
module MarketBuyAndLimitSell {
  import opened Wrappers
  import opened PyStrings
  import opened CcxtExchange
  import opened Data

  /** The fields of a service call: a wire-form symbol and two percentages. */
  datatype ServiceCall = ServiceCall(symbol: string, buyPercentage: real, sellProfit: real)

  /** The parsed service data; both numbers are fractions (the percentages divided by 100). */
  datatype MarketBuyAndLimitSellData = MarketBuyAndLimitSellData(symbol: string, buyPercentage: real, sellProfit: real)

  /** `try_from_data`: the symbol as given, each percentage divided by 100. */
  function TryFromData(call: ServiceCall): (d: MarketBuyAndLimitSellData)
    ensures d.symbol == call.symbol
    ensures d.buyPercentage * 100.0 == call.buyPercentage
    ensures d.sellProfit * 100.0 == call.sellProfit
    ensures 0.0 <= call.buyPercentage <= 100.0 ==> 0.0 <= d.buyPercentage <= 1.0
  {
    MarketBuyAndLimitSellData(call.symbol, call.buyPercentage / 100.0, call.sellProfit / 100.0)
  }

  const ClientOidPrefix: string := "ha-mbals-B"

  /** `.replace(",", "").replace(".", "")`. */
  function StripSeparators(s: string): (r: string)
    ensures ',' !in r && '.' !in r
  {
    DeleteKeepsAbsent(Delete(s, ','), '.', ',');
    Delete(Delete(s, ','), '.')
  }

  lemma StripSeparatorsConcat(a: string, b: string)
    ensures StripSeparators(a + b) == StripSeparators(a) + StripSeparators(b)
  {
    DeleteConcat(a, b, ',');
    DeleteConcat(Delete(a, ','), Delete(b, ','), '.');
  }

  lemma StripSeparatorsKeeps(s: string)
    requires ',' !in s && '.' !in s
    ensures StripSeparators(s) == s
  {
    DeleteAbsent(s, ',');
    DeleteAbsent(s, '.');
  }

  /** Each separator on its own is removed entirely. */
  lemma StripSeparatorsRemoves()
    ensures StripSeparators(",") == [] && StripSeparators(".") == []
  {
    DeleteSingle(',');
    DeleteAbsent([], '.');
    DeleteAbsent(".", ',');
    DeleteSingle('.');
  }

  /** A rendered float loses its separator and keeps its digits in order. */
  lemma StripSeparatorsExample()
    ensures StripSeparators("2.5") == "25"
  {
    StripSeparatorsRemoves();
    StripSeparatorsConcat("2", ".5");
    StripSeparatorsConcat(".", "5");
    StripSeparatorsKeeps("2");
    StripSeparatorsKeeps("5");
    assert "2.5" == "2" + ("." + "5");
  }

  /**
   * `create_client_oid`: "ha-mbals-B{buy percentage}-P{profit percentage}-{time}"
   * with every ',' and '.' removed. `render` is `str` on floats.
   */
  function CreateClientOid(d: MarketBuyAndLimitSellData, render: real -> string, timestamp: string): (oid: string)
    ensures ',' !in oid && '.' !in oid
  {
    StripSeparatorsPieces(render(d.buyPercentage * 100.0), render(d.sellProfit * 100.0), timestamp);
    StripSeparators(ClientOidPrefix + render(d.buyPercentage * 100.0) + "-P" + render(d.sellProfit * 100.0) + "-" + timestamp)
  }

  /** Stripping the assembled id strips each rendered piece; the literal pieces hold no ',' or '.'. */
  lemma StripSeparatorsPieces(b: string, p: string, t: string)
    ensures StripSeparators(ClientOidPrefix + b + "-P" + p + "-" + t)
         == ClientOidPrefix + StripSeparators(b) + "-P" + StripSeparators(p) + "-" + StripSeparators(t)
  {
    StripSeparatorsConcat(ClientOidPrefix + b + "-P" + p + "-", t);
    StripSeparatorsConcat(ClientOidPrefix + b + "-P" + p, "-");
    StripSeparatorsConcat(ClientOidPrefix + b + "-P", p);
    StripSeparatorsConcat(ClientOidPrefix + b, "-P");
    StripSeparatorsConcat(ClientOidPrefix, b);
    StripSeparatorsKeeps(ClientOidPrefix);
    StripSeparatorsKeeps("-P");
    StripSeparatorsKeeps("-");
  }

  /** The client order id begins with the prefix and carries the input percentages back. */
  lemma ClientOidShape(call: ServiceCall, render: real -> string, timestamp: string)
    ensures var oid := CreateClientOid(TryFromData(call), render, timestamp);
      && |oid| >= |ClientOidPrefix| && oid[..|ClientOidPrefix|] == ClientOidPrefix
      && oid[|ClientOidPrefix|..] == StripSeparators(render(call.buyPercentage)) + "-P"
                                    + StripSeparators(render(call.sellProfit)) + "-" + StripSeparators(timestamp)
  {
    var d := TryFromData(call);
    assert d.buyPercentage * 100.0 == call.buyPercentage;
    assert d.sellProfit * 100.0 == call.sellProfit;
    var tail := StripSeparators(render(call.buyPercentage)) + "-P" + StripSeparators(render(call.sellProfit)) + "-" + StripSeparators(timestamp);
    StripSeparatorsPieces(render(call.buyPercentage), render(call.sellProfit), timestamp);
    var oid := CreateClientOid(d, render, timestamp);
    assert oid == ClientOidPrefix + tail;
  }

  // ---------------------------------------------------------------------------
  // The arithmetic of the service
  // ---------------------------------------------------------------------------

  /** `free_usd * buy_percentage`: within the free balance for a fraction in [0, 1]. */
  function AvailableForOrder(freeUsd: real, buyFraction: real): (r: real)
    ensures freeUsd >= 0.0 && 0.0 <= buyFraction <= 1.0 ==> 0.0 <= r <= freeUsd
  {
    MulBounded(freeUsd, buyFraction);
    freeUsd * buyFraction
  }

  lemma MulBounded(x: real, f: real)
    ensures x >= 0.0 && 0.0 <= f <= 1.0 ==> 0.0 <= x * f <= x
  {
    if x >= 0.0 && 0.0 <= f <= 1.0 {
      assert x - x * f == x * (1.0 - f);
    }
  }

  /** `available_for_order / price`: buying that amount at that price spends exactly what is available. */
  function BuyAmount(available: real, price: real): (r: real)
    requires price != 0.0
    ensures r * price == available
  {
    available / price
  }

  /** `fill * (1 + profit)`: the markup over the fill is exactly fill × profit. */
  function SellPrice(fillPrice: real, profit: real): (r: real)
    ensures r - fillPrice == fillPrice * profit
    ensures fillPrice > 0.0 && profit > 0.0 ==> r > fillPrice
  {
    fillPrice * (1.0 + profit)
  }

  /** 50% of 1000 USD at a price of 20000 buys 0.025; a 2% profit on a 20000 fill sells at 20400. */
  lemma EndToEndExample()
    ensures var d := TryFromData(ServiceCall("BTC/USD", 50.0, 2.0));
      && BuyAmount(AvailableForOrder(1000.0, d.buyPercentage), 20000.0) == 0.025
      && SellPrice(20000.0, d.sellProfit) == 20400.0
  {
    var d := TryFromData(ServiceCall("BTC/USD", 50.0, 2.0));
    assert d.buyPercentage == 0.5 && d.sellProfit == 0.02;
  }

  // ---------------------------------------------------------------------------
  // The service body
  // ---------------------------------------------------------------------------

  /** Why the service stopped early: the exception the source would raise. */
  datatype Failure =
    | NoFreeUsd      // `['free']['USD']` has no entry
    | UnknownSymbol  // the exchange rejects `fetch_ticker` for the symbol
    | ZeroPrice      // division by a zero last price

  datatype Outcome =
    | Completed(buyAmount: real, submitted: Order, closed: Order, sellPrice: real, clientOid: string, sellOrder: Order)
    | Aborted(failure: Failure)

  /** Every limit sell in the trace is preceded by a closed order of the amount it sells. */
  ghost predicate SellsFollowFills(trace: seq<Event>) {
    forall j :: 0 <= j < |trace| && trace[j].LimitSellSubmitted? ==>
      exists i :: 0 <= i < j && trace[i].OrderClosed? && trace[i].order.status == Closed && trace[i].order.amount == trace[j].amount
  }

  /**
   * `market_buy_and_limit_sell`: balance fetch, ticker fetch, market buy, wait
   * until closed, limit sell, balance refresh, in that order; an error stops the
   * sequence where it occurs and nothing is undone.
   */
  method MarketBuyAndLimitSell(data: CryptoComData, call: ServiceCall, render: real -> string, timestamp: string)
    returns (outcome: Outcome)
    modifies data.exchange`trace, data.exchange`nextOrderId
    ensures var d := TryFromData(call);
      var balance := data.exchange.balance;
      var freeUsd := Lookup(balance.free, "USD");
      var ticker := if d.symbol in data.exchange.tickers then Some(data.exchange.tickers[d.symbol]) else None;
      && (freeUsd.None? ==>
            outcome == Aborted(NoFreeUsd)
            && data.exchange.trace == old(data.exchange.trace) + [BalanceFetched(balance)])
      && (freeUsd.Some? && ticker.None? ==>
            outcome == Aborted(UnknownSymbol)
            && data.exchange.trace == old(data.exchange.trace) + [BalanceFetched(balance), TickerFetched(d.symbol, None)])
      && (freeUsd.Some? && ticker.Some? && ticker.value.last == 0.0 ==>
            outcome == Aborted(ZeroPrice)
            && data.exchange.trace == old(data.exchange.trace) + [BalanceFetched(balance), TickerFetched(d.symbol, ticker)])
      && (freeUsd.Some? && ticker.Some? && ticker.value.last != 0.0 ==>
            outcome.Completed?
            && outcome.buyAmount == BuyAmount(AvailableForOrder(freeUsd.value, d.buyPercentage), ticker.value.last)
            && outcome.submitted.amount == outcome.buyAmount
            && outcome.closed.id == outcome.submitted.id && outcome.closed.status == Closed
            && outcome.sellPrice == SellPrice(outcome.closed.price, d.sellProfit)
            && outcome.clientOid == CreateClientOid(d, render, timestamp)
            && data.exchange.trace == old(data.exchange.trace) + [
                 BalanceFetched(balance),
                 TickerFetched(d.symbol, ticker),
                 MarketBuySubmitted(d.symbol, outcome.buyAmount, outcome.submitted),
                 OrderClosed(outcome.closed),
                 LimitSellSubmitted(d.symbol, outcome.closed.amount, outcome.sellPrice, outcome.clientOid, outcome.sellOrder),
                 BalanceRefreshRequested])
    ensures SellsFollowFills(old(data.exchange.trace)) ==> SellsFollowFills(data.exchange.trace)
  {
    var serviceData := TryFromData(call);
    var exchange := data.exchange;

    var balance := exchange.FetchBalance();
    var freeUsd := Lookup(balance.free, "USD");
    if freeUsd.None? {
      if SellsFollowFills(old(exchange.trace)) { SellsFollowFillsExtend(old(exchange.trace), [BalanceFetched(balance)]); }
      return Aborted(NoFreeUsd);
    }
    var availableForOrder := freeUsd.value * serviceData.buyPercentage;
    var ticker := exchange.FetchTicker(serviceData.symbol);
    ghost var fetched := [BalanceFetched(balance), TickerFetched(serviceData.symbol, ticker)];
    assert exchange.trace == old(exchange.trace) + fetched;
    if SellsFollowFills(old(exchange.trace)) { SellsFollowFillsExtend(old(exchange.trace), fetched); }
    if ticker.None? {
      return Aborted(UnknownSymbol);
    }
    var price := ticker.value.last;
    if price == 0.0 {
      return Aborted(ZeroPrice);
    }
    var buyAmount := availableForOrder / price;
    outcome := BuyWaitAndSell(data, serviceData, buyAmount, render, timestamp);
  }

  /**
   * The second half of `market_buy_and_limit_sell`: market buy, wait until
   * closed, limit sell of the filled amount at the marked-up fill price,
   * balance refresh.
   */
  method BuyWaitAndSell(data: CryptoComData, d: MarketBuyAndLimitSellData, buyAmount: real,
                        render: real -> string, timestamp: string)
    returns (outcome: Outcome)
    modifies data.exchange`trace, data.exchange`nextOrderId
    ensures outcome.Completed?
    ensures outcome.buyAmount == buyAmount && outcome.submitted.amount == buyAmount
    ensures outcome.closed.id == outcome.submitted.id && outcome.closed.status == Closed
    ensures outcome.sellPrice == SellPrice(outcome.closed.price, d.sellProfit)
    ensures outcome.clientOid == CreateClientOid(d, render, timestamp)
    ensures data.exchange.trace == old(data.exchange.trace) + [
              MarketBuySubmitted(d.symbol, buyAmount, outcome.submitted),
              OrderClosed(outcome.closed),
              LimitSellSubmitted(d.symbol, outcome.closed.amount, outcome.sellPrice, outcome.clientOid, outcome.sellOrder),
              BalanceRefreshRequested]
    ensures SellsFollowFills(old(data.exchange.trace)) ==> SellsFollowFills(data.exchange.trace)
  {
    var exchange := data.exchange;
    var buyOrder := exchange.CreateMarketBuyOrder(d.symbol, buyAmount);
    var submitted := buyOrder;
    buyOrder := data.WaitUntilOrderClosed(buyOrder);

    var sellAmount := buyOrder.amount;
    var sellPrice := buyOrder.price * (1.0 + d.sellProfit);
    var clientOid := CreateClientOid(d, render, timestamp);
    var sellOrder := exchange.CreateLimitSellOrder(d.symbol, sellAmount, sellPrice, clientOid);
    data.RequestBalanceRefresh();
    outcome := Completed(buyAmount, submitted, buyOrder, sellPrice, clientOid, sellOrder);

    if SellsFollowFills(old(exchange.trace)) {
      SellLegKeepsSellsFollowFills(old(exchange.trace), MarketBuySubmitted(d.symbol, buyAmount, submitted), buyOrder,
                                   LimitSellSubmitted(d.symbol, sellAmount, sellPrice, clientOid, sellOrder));
    }
  }

  /** The four events of the buy-and-sell leg keep the property: the sell follows the close of its amount. */
  lemma SellLegKeepsSellsFollowFills(before: seq<Event>, buy: Event, closed: Order, sell: Event)
    requires SellsFollowFills(before)
    requires !buy.LimitSellSubmitted? && closed.status == Closed
    requires sell.LimitSellSubmitted? && sell.amount == closed.amount
    ensures SellsFollowFills(before + [buy, OrderClosed(closed), sell, BalanceRefreshRequested])
  {
    var mid := before + [buy, OrderClosed(closed)];
    SellsFollowFillsExtend(before, [buy, OrderClosed(closed)]);
    SellAfterClose(mid, closed, sell, [BalanceRefreshRequested]);
    assert mid + [sell] + [BalanceRefreshRequested] == before + [buy, OrderClosed(closed), sell, BalanceRefreshRequested];
  }

  /** Events other than limit sells never break the property. */
  lemma SellsFollowFillsExtend(before: seq<Event>, extra: seq<Event>)
    requires SellsFollowFills(before)
    requires forall k :: 0 <= k < |extra| ==> !extra[k].LimitSellSubmitted?
    ensures SellsFollowFills(before + extra)
  {
    var after := before + extra;
    assert forall k :: |before| <= k < |after| ==> after[k] == extra[k - |before|];
    forall j | 0 <= j < |after| && after[j].LimitSellSubmitted?
      ensures exists i :: 0 <= i < j && after[i].OrderClosed? && after[i].order.status == Closed && after[i].order.amount == after[j].amount
    {
      var i :| 0 <= i < j && before[i].OrderClosed? && before[i].order.status == Closed && before[i].order.amount == before[j].amount;
      assert after[i] == before[i];
    }
  }

  /** A limit sell of the amount of the order closed just before it keeps the property. */
  lemma SellAfterClose(before: seq<Event>, closed: Order, sell: Event, rest: seq<Event>)
    requires SellsFollowFills(before)
    requires |before| > 0 && before[|before| - 1] == OrderClosed(closed) && closed.status == Closed
    requires sell.LimitSellSubmitted? && sell.amount == closed.amount
    requires forall k :: 0 <= k < |rest| ==> !rest[k].LimitSellSubmitted?
    ensures SellsFollowFills(before + [sell] + rest)
  {
    var mid := before + [sell];
    forall j | 0 <= j < |mid| && mid[j].LimitSellSubmitted?
      ensures exists i :: 0 <= i < j && mid[i].OrderClosed? && mid[i].order.status == Closed && mid[i].order.amount == mid[j].amount
    {
      if j < |before| {
        var i :| 0 <= i < j && before[i].OrderClosed? && before[i].order.status == Closed && before[i].order.amount == before[j].amount;
        assert mid[i] == before[i] && mid[j] == before[j];
      } else {
        assert mid[|before| - 1] == OrderClosed(closed);
      }
    }
    SellsFollowFillsExtend(mid, rest);
  }
}
