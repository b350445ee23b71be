# Crypto.com Home Assistant integration — verified model

This project models the deterministic core of a Home Assistant integration
for the Crypto.com exchange, and proves properties of the model:

- **Market symbols** (`market_symbol.dfy`, module `MarketSymbols`). A pair
  such as `BTC/USD` or `ETH_USDT` is parsed into a base and a quote code.
  Three strings are derived from a symbol: the lower-case key (`btc_usd`),
  the exchange wire form (`BTC/USD`) and the display unit (`$`, `€` or the
  quote itself).
- **The market and ticker cache** (`data.dfy`, module `Data`).
  - The coordinator class keeps a market list, fetched only while the list is
    empty, and a ticker map, replaced on every update.
  - It looks up a symbol's price step: the first match in list order, else 0.01.
  - It looks up a symbol's rounded last price.
  - The facade class owns the exchange handle and its own market list.
- **The sensors** (`sensor.py` → `sensor.dfy`, module `Sensors`):
  - the sensor list built at platform setup;
  - currency-sensor names, unique ids and icons;
  - the last-price value;
  - the simple moving average, present only for a full window;
  - the virtual balance, a fold over a currency dictionary.
- **The market-buy-then-limit-sell service**
  (`market_buy_and_limit_sell.dfy`, module `MarketBuyAndLimitSell`):
  - converting the percentages of the service call to fractions;
  - the client order id;
  - the buy amount and the sell price;
  - the fixed sequence of exchange calls, with the error exits of the code.

The exchange (`exchange.dfy`, module `CcxtExchange`) is a class that stands
in for the remote exchange. It holds the markets, tickers and balance that the remote exchange would
report, and it records every call in a `trace` of events. The service and the
coordinator are specified by what they append to that trace. Python's string
primitives that the core relies on are in `py_strings.dfy` (module
`PyStrings`): `replace`, `split`, `lower`, character deletion and integer
rendering. `wrappers.dfy` holds `Option`.

Where the source files disagree with each other, the model follows what each
call site uses:

- `CryptoComData` in `custom_components/cryptocom/data.py` defines neither
  `round_with_precision`, `wait_until_order_closed` nor the balance, tickers
  and candlestick coordinators that `sensor.py` and
  `market_buy_and_limit_sell.py` call.
  - `RoundWithPrecision` formats a value with the price step of the facade's
    market list. The formatting itself is the function value `format`.
  - `WaitUntilOrderClosed` returns the same order in the closed state.
  - A coordinator snapshot (tickers, balance, candles) is a parameter of the
    sensor value it feeds.
- `LastPriceSensor` calls `query_last_price`, which `data.py` does not
  define. It is modelled as a plain lookup in the ticker snapshot
  (`Data.QueryLastPrice`); the sensor rounds the result.
- The simple moving average averages field index 3 of each candle
  (`a[3]`, the `low` of an OHLCV row), although the sensor's variable is
  named for closing prices. The model averages `low`, as the code does.
- The euro sign is one constant, `MarketSymbols.EuroSign`.

## Model

| member | source | states |
|---|---|---|
| PyStrings.Replace | custom_components/cryptocom/market_symbol.py:10 | `str.replace` on one character: same length, each `from` becomes `to`, every other character is kept |
| PyStrings.ReplaceConcat | custom_components/cryptocom/market_symbol.py:10 | replacing distributes over concatenation |
| PyStrings.Split | custom_components/cryptocom/market_symbol.py:10 | `str.split(sep)` gives at least one piece and no piece holds the separator |
| PyStrings.JoinSplit | custom_components/cryptocom/market_symbol.py:10 | joining the pieces with the separator gives the string back |
| PyStrings.SplitSeveralIff | custom_components/cryptocom/market_symbol.py:10-11 | there are at least two pieces exactly when the separator occurs |
| PyStrings.SplitFirstPiece | custom_components/cryptocom/market_symbol.py:10-11 | a separator-free prefix before the first separator is the first piece |
| PyStrings.Lower | custom_components/cryptocom/market_symbol.py:15 | `str.lower` on ASCII: same length, no upper-case letter left, others kept |
| PyStrings.Delete | custom_components/cryptocom/market_buy_and_limit_sell.py:32 | `replace(c, "")` leaves no `c` and never lengthens the string |
| PyStrings.DeleteConcat | custom_components/cryptocom/market_buy_and_limit_sell.py:32 | deleting a character distributes over concatenation |
| PyStrings.DeleteSingle | custom_components/cryptocom/market_buy_and_limit_sell.py:32 | the deleted character on its own leaves nothing; with `DeleteConcat` and `DeleteAbsent` this pins `replace(c, "")` on every string |
| PyStrings.DeleteAbsent | custom_components/cryptocom/market_buy_and_limit_sell.py:32 | a string without the character is unchanged, so every other character is kept in order |
| PyStrings.NatToString | custom_components/cryptocom/sensor.py:132 | rendering a natural number gives a non-empty run of digits without a leading zero |
| PyStrings.DigitsValueOfNatToString | custom_components/cryptocom/sensor.py:132 | reading the digits back gives the number, so rendering is injective |
| MarketSymbols.MarketSymbol.Name | custom_components/cryptocom/market_symbol.py:13-15 | the key "{base}_{quote}" lower-cased: one character longer than the two codes, with '_' right after the base (`NameParts` gives its content) |
| MarketSymbols.MarketSymbol.CcxtSymbol | custom_components/cryptocom/market_symbol.py:17-19 | the wire form: the base unchanged, '/', the quote unchanged |
| MarketSymbols.MarketSymbol.UnitOfMeasurement | custom_components/cryptocom/market_symbol.py:21-28 | "$" for quote USD, the euro sign for EUR, else the quote (`UnitDependsOnQuote`, `RenderExamples`) |
| MarketSymbols.TryFromString | custom_components/cryptocom/market_symbol.py:9-11 | no symbol exactly when the string holds neither `/` nor `_` (index 1 out of range); otherwise the codes hold no separator |
| MarketSymbols.PiecesOfNormalized | custom_components/cryptocom/market_symbol.py:10-11 | after normalising `_` to `/`, there are two pieces exactly when a separator occurs, and no piece holds one |
| MarketSymbols.SplitPieceCharsIn | custom_components/cryptocom/market_symbol.py:10 | every character of a split piece is a character of the split string |
| MarketSymbols.SeparatorsInterchangeable | custom_components/cryptocom/market_symbol.py:10-11 | strings that differ only in which separator they use parse to the same symbol |
| MarketSymbols.ParseFirstTwoParts | custom_components/cryptocom/market_symbol.py:10-11 | with separator-free codes, everything after a second separator is discarded |
| MarketSymbols.ParseTwoParts | custom_components/cryptocom/market_symbol.py:10-11 | `base sep quote` with separator-free codes parses to exactly (base, quote), for either separator |
| MarketSymbols.ParseCcxtSymbol | custom_components/cryptocom/market_symbol.py:9-19 | round trip: parsing the wire form gives the symbol back when its codes hold no separator |
| MarketSymbols.NameParts | custom_components/cryptocom/market_symbol.py:14-15 | the key is lower(base) + "_" + lower(quote) and holds no upper-case letter |
| MarketSymbols.UnitDependsOnQuote | custom_components/cryptocom/market_symbol.py:22-28 | the display unit depends on the quote only |
| MarketSymbols.ParseExamples | tests/test_symbol.py:6-13 | "BTC/USD" parses to (BTC, USD) and "ETH_USDT" to (ETH, USDT) |
| MarketSymbols.ParseEdgeExamples | custom_components/cryptocom/market_symbol.py:10-11 | "BTCUSD" does not parse; "/" parses to two empty codes, which are not rejected |
| MarketSymbols.RenderExamples | tests/test_symbol.py:15-24 | key "btc_usd", wire form "BTC/USD", units "$", "€" and "USDT" |
| CcxtExchange.Lookup | custom_components/cryptocom/market_buy_and_limit_sell.py:39 | a dictionary read: absent exactly when no entry has the key, else the amount of an entry with that key |
| CcxtExchange.Exchange.FetchMarkets | custom_components/cryptocom/data.py:55 | returns the exchange's market list and records the call |
| CcxtExchange.Exchange.FetchTickers | custom_components/cryptocom/data.py:43 | returns the exchange's ticker map and records the call |
| CcxtExchange.Exchange.FetchBalance | custom_components/cryptocom/market_buy_and_limit_sell.py:39 | returns the exchange's balance and records the call |
| CcxtExchange.Exchange.FetchTicker | custom_components/cryptocom/market_buy_and_limit_sell.py:41 | returns the symbol's ticker, or nothing for a symbol the exchange does not list, and records the call |
| CcxtExchange.Exchange.CreateMarketBuyOrder | custom_components/cryptocom/market_buy_and_limit_sell.py:45 | a new order id, the requested symbol and amount, not yet closed; the call is recorded |
| CcxtExchange.Exchange.CreateLimitSellOrder | custom_components/cryptocom/market_buy_and_limit_sell.py:52 | a new order id with the requested symbol, amount and price; the call and its client order id are recorded |
| Data.FindMarket | custom_components/cryptocom/data.py:58-62 | the index of the first market in list order whose symbol matches; none exactly when no market matches |
| Data.PricePrecision | custom_components/cryptocom/data.py:58-64 | the price step of the first market `FindMarket` finds, else 0.01 |
| Data.QueryLastPrice | custom_components/cryptocom/sensor.py:117 | the last price of the wire-form symbol, absent exactly when the ticker map has no entry for it |
| Data.CryptoComDataCoordinator.constructor | custom_components/cryptocom/data.py:33-37 | empty market list and empty ticker map |
| Data.CryptoComDataCoordinator.UpdateMarkets | custom_components/cryptocom/data.py:53-56 | fetches only while the market list is empty; a non-empty list and the trace are left unchanged, so repeating it is idempotent |
| Data.CryptoComDataCoordinator.UpdateData | custom_components/cryptocom/data.py:39-43 | markets are loaded first, then the ticker map becomes exactly the fetched map |
| Data.CryptoComDataCoordinator.FetchPricePrecision | custom_components/cryptocom/data.py:58-64 | the price step of the first matching market; 0.01 when none matches; markets and tickers unchanged |
| Data.CryptoComDataCoordinator.FetchLastPrice | custom_components/cryptocom/data.py:45-51 | nothing exactly when the wire form is missing from the ticker map, else the last price formatted with the symbol's price step |
| Data.CryptoComData.constructor | custom_components/cryptocom/data.py:18-25 | the coordinator shares the exchange; all caches start empty |
| Data.CryptoComData.AsyncSetup | custom_components/cryptocom/data.py:27-28 | the facade's market list becomes exactly the fetched list |
| Data.CryptoComData.RoundWithPrecision | custom_components/cryptocom/sensor.py:98-99 | `format` applied to the value and the price step of the symbol's wire form in the facade's market list |
| Data.CryptoComData.WaitUntilOrderClosed | custom_components/cryptocom/market_buy_and_limit_sell.py:47 | returns the same order (id, symbol) in the closed state, after which the close is on the trace |
| Data.CryptoComData.RequestBalanceRefresh | custom_components/cryptocom/market_buy_and_limit_sell.py:53 | records the balance refresh request |
| Sensors.SmaPostfix | custom_components/cryptocom/sensor.py:132 | "sma_" + the period in decimal + "_1h" (`SmaPostfixInjective`) |
| Sensors.Name | custom_components/cryptocom/sensor.py:77-79 | "{key}_{postfix}" for currency sensors; "Crypto.com {title}" for balance sensors (sensor.py:156-158) |
| Sensors.UniqueId | custom_components/cryptocom/sensor.py:73-75 | the name for currency sensors; for balance sensors the name lower-cased with ' ' turned into '_' (sensor.py:152-154) |
| Sensors.Icon | custom_components/cryptocom/sensor.py:86-96 | the EUR, USD and BTC icons by base currency, "mdi:cash" otherwise (`IconDependsOnBase`, `SensorExamples`) |
| Sensors.CurrencySensorNameIsId | custom_components/cryptocom/sensor.py:73-79 | a currency sensor's name equals its unique id and starts with the symbol's key and "_" |
| Sensors.VirtualBalanceIdShape | custom_components/cryptocom/sensor.py:152-158 | the balance sensor's id is "Crypto.com {name}" lower-cased with every space turned into "_" |
| Sensors.SmaPostfixInjective | custom_components/cryptocom/sensor.py:132 | different periods give different "sma_{period}_1h" postfixes, none equal to "last_price" |
| Sensors.CurrencySensorIdsDistinct | custom_components/cryptocom/sensor.py:73-75 | two postfixes of one symbol give two unique ids |
| Sensors.SensorExamples | tests/test_sensor.py:13 | "btc_usd_last_price", "sma_25_1h", and the BTC and fallback icons |
| Sensors.IconDependsOnBase | custom_components/cryptocom/sensor.py:86-96 | the icon depends on the base currency only |
| Sensors.LastPriceValue | custom_components/cryptocom/sensor.py:115-121 | nothing exactly when the price is missing or zero, else the price rounded to the symbol's step |
| Sensors.TailSlice | custom_components/cryptocom/sensor.py:136 | `data[-n:]`: the last n items, or all of them when there are fewer |
| Sensors.Lows | custom_components/cryptocom/sensor.py:138 | field 3 (`low`) of each candle, in order |
| Sensors.SmaValue | custom_components/cryptocom/sensor.py:134-142 | absent exactly when fewer than `period` candles are cached; else the mean over exactly the last `period` candles |
| Sensors.SmaNativeValue | custom_components/cryptocom/sensor.py:134-142 | the moving average rounded to the symbol's step, absent exactly when the window is short |
| Sensors.SumBounds | custom_components/cryptocom/sensor.py:139 | a sum of n values within [lo, hi] lies within [n·lo, n·hi] |
| Sensors.SmaWithinWindow | custom_components/cryptocom/sensor.py:135-139 | the average lies between the lowest and highest `low` of the window |
| Sensors.SmaIgnoresOlderCandles | custom_components/cryptocom/sensor.py:136-139 | candles older than the window do not change the average |
| Sensors.Select | custom_components/cryptocom/sensor.py:170 | the "total" or "free" dictionary of the balance, by the sensor's property |
| Sensors.UsdAmount | custom_components/cryptocom/sensor.py:171 | the USD entry, 0 when missing |
| Sensors.Converted | custom_components/cryptocom/sensor.py:174-179 | the sum over the entries of last × amount for each non-USD currency with a "{currency}/USD" ticker |
| Sensors.VirtualBalance | custom_components/cryptocom/sensor.py:169-183 | nothing without ticker data, else the USD amount plus the converted entries |
| Sensors.VirtualBalanceValue | custom_components/cryptocom/sensor.py:168-183 | the accumulation loop over the dictionary the sensor's property selects equals `VirtualBalance` of it; absent exactly without ticker data |
| Sensors.ConvertedAppend | custom_components/cryptocom/sensor.py:174-179 | the conversion is additive over splitting the dictionary, and swapping the two parts does not change it |
| Sensors.ConvertedPrepend | custom_components/cryptocom/sensor.py:174-179 | prepending entries adds their conversion |
| Sensors.ConvertedSkips | custom_components/cryptocom/sensor.py:175-178 | USD entries and entries without a "{currency}/USD" ticker add nothing |
| Sensors.ConvertedNonNegative | custom_components/cryptocom/sensor.py:171-179 | with non-negative amounts and prices the virtual balance is at least the USD amount |
| Sensors.VirtualBalanceExample | custom_components/cryptocom/sensor.py:169-183 | 100 USD + 2 BTC at 20000 + 1 ETH without ticker gives 40100; no ticker data gives nothing |
| Sensors.BalanceSensors | custom_components/cryptocom/sensor.py:48-50 | the "total" then "free" balance sensors with a balance coordinator, none without |
| Sensors.ParsedSensors | custom_components/cryptocom/sensor.py:53-62 | one string's contribution: none unparsed, last price alone if the candlestick call fails, else five |
| Sensors.AllConfigSensors | custom_components/cryptocom/sensor.py:51-62 | the contributions of the configured strings, in order |
| Sensors.AsyncSetupPlatform | custom_components/cryptocom/sensor.py:47-62 | the balance sensors ("total", then "free") come first and only with a balance coordinator, followed by each configured string's sensors in order |
| Sensors.AppendAllConfigSensors | custom_components/cryptocom/sensor.py:51-62 | the loop appends every configured string's contribution in configuration order |
| Sensors.AppendConfigSensors | custom_components/cryptocom/sensor.py:53-62 | one `try` block: nothing for an unparseable string, the last-price sensor alone when the candlestick coordinator fails, else last price and SMA 25, 50, 100, 200 |
| Sensors.AllConfigSensorsStep | custom_components/cryptocom/sensor.py:51-62 | one more configured string appends exactly its own contribution |
| Sensors.AllConfigSensorsAppend | custom_components/cryptocom/sensor.py:51-62 | configured strings are handled independently: the list for a concatenation is the concatenation of the lists |
| Sensors.ParseAllConcat | custom_components/cryptocom/sensor.py:51-54 | parsing a concatenation of configurations parses each part |
| Sensors.UnparseableSkipped | custom_components/cryptocom/sensor.py:53-62 | a string that does not parse adds no sensor wherever it stands, and later strings are still processed |
| Sensors.FiveSensorsPerSymbol | custom_components/cryptocom/sensor.py:54-60 | without coordinator failures, each parsed symbol adds exactly five sensors |
| Sensors.SymbolSensorIdsDistinct | custom_components/cryptocom/sensor.py:55-60 | the five sensors of one symbol have pairwise different unique ids |
| MarketBuyAndLimitSell.TryFromData | custom_components/cryptocom/market_buy_and_limit_sell.py:23-29 | the symbol is kept; each percentage is divided by 100, so [0, 100] becomes [0, 1] |
| MarketBuyAndLimitSell.StripSeparators | custom_components/cryptocom/market_buy_and_limit_sell.py:32 | no ',' and no '.' remain |
| MarketBuyAndLimitSell.StripSeparatorsConcat | custom_components/cryptocom/market_buy_and_limit_sell.py:32 | stripping distributes over concatenation |
| MarketBuyAndLimitSell.StripSeparatorsKeeps | custom_components/cryptocom/market_buy_and_limit_sell.py:32 | a string without ',' or '.' is unchanged |
| MarketBuyAndLimitSell.StripSeparatorsRemoves | custom_components/cryptocom/market_buy_and_limit_sell.py:32 | "," and "." on their own strip to nothing; with the two lemmas above this pins the two-step strip on every string |
| MarketBuyAndLimitSell.StripSeparatorsExample | custom_components/cryptocom/market_buy_and_limit_sell.py:32 | "2.5" strips to "25": the digits stay, in order |
| MarketBuyAndLimitSell.CreateClientOid | custom_components/cryptocom/market_buy_and_limit_sell.py:31-32 | the client order id holds no ',' and no '.' |
| MarketBuyAndLimitSell.StripSeparatorsPieces | custom_components/cryptocom/market_buy_and_limit_sell.py:32 | stripping the assembled id strips each rendered piece and keeps the literal pieces |
| MarketBuyAndLimitSell.ClientOidShape | custom_components/cryptocom/market_buy_and_limit_sell.py:31-32 | the id starts with "ha-mbals-B", then the stripped buy percentage, "-P", the stripped profit percentage, "-" and the stripped time |
| MarketBuyAndLimitSell.AvailableForOrder | custom_components/cryptocom/market_buy_and_limit_sell.py:40 | for a fraction in [0, 1] the budget lies between 0 and the free USD |
| MarketBuyAndLimitSell.BuyAmount | custom_components/cryptocom/market_buy_and_limit_sell.py:42 | buy amount × price equals the budget |
| MarketBuyAndLimitSell.SellPrice | custom_components/cryptocom/market_buy_and_limit_sell.py:50 | the markup over the fill is fill × profit; above the fill when both are positive |
| MarketBuyAndLimitSell.EndToEndExample | custom_components/cryptocom/market_buy_and_limit_sell.py:39-50 | 50% of 1000 USD at 20000 buys 0.025; a 2% profit on a 20000 fill sells at 20400 |
| MarketBuyAndLimitSell.MarketBuyAndLimitSell | custom_components/cryptocom/market_buy_and_limit_sell.py:36-53 | balance fetch, ticker fetch, market buy, wait, limit sell of the closed amount at the marked-up fill price, refresh, in that order; each error stops the sequence where the source raises; no sell ever precedes a close of its amount |
| MarketBuyAndLimitSell.BuyWaitAndSell | custom_components/cryptocom/market_buy_and_limit_sell.py:45-53 | the sell is submitted after the wait returns, for the closed order's amount, with the client order id |
| MarketBuyAndLimitSell.SellLegKeepsSellsFollowFills | custom_components/cryptocom/market_buy_and_limit_sell.py:45-53 | buy, close, sell and refresh keep "every sell follows a close of its amount" |
| MarketBuyAndLimitSell.SellsFollowFillsExtend | custom_components/cryptocom/market_buy_and_limit_sell.py:39-47 | calls other than limit sells keep the property |
| MarketBuyAndLimitSell.SellAfterClose | custom_components/cryptocom/market_buy_and_limit_sell.py:47-52 | a sell of the amount of the order closed just before it keeps the property |

## Left out

- `round_with_precision` (`custom_components/cryptocom/utils.py`) and every float-to-text rendering are not modelled. This includes `str(x)` inside the client order id, `time.time()` and the `:.2f` rendering of the virtual balance. Rounding is the function value `format`, the renderings are the `render` and `timestamp` parameters, and `Sensors.VirtualBalanceValue` returns the number.
- Prices, amounts and percentages are exact reals, not binary floats. So `MarketBuyAndLimitSell.ClientOidShape` renders exactly the input percentages, whereas in Python `7 / 100 * 100` is `7.000000000000001` and the digits in the id can differ from the input.
- `PyStrings.Lower`: lower-cases ASCII letters only; Python's Unicode case mapping is not modelled.
- The remote exchange is a class holding the state it would report; latency, rate limits and network failures are not modelled. The modelled failures are a missing free USD entry (`KeyError`), an unknown ticker symbol (the exchange's error) and a zero last price (`ZeroDivisionError`).
- `Data.CryptoComData.WaitUntilOrderClosed`: the unbounded polling is not modelled. It returns the order it was given, with its amount and price as the exchange reported them, in the closed state.
- Home Assistant's scheduling: update intervals, `async_timeout`, the coordinator and entity base classes, and the entity registry are not modelled. Coordinator snapshots are parameters of the sensor values.
- The `hass.data` guard at the start of `async_setup_platform`, the configuration schemas, logging and `add_entities` are not modelled.
- Getting a candlestick coordinator may raise; that is the predicate `candlesFail`, and its exception is caught like a parse error.
- `custom_components/cryptocom/__init__.py` and `const.py` are not part of this model.
- `Sensors.SmaValue`: requires a positive period. The source only builds moving averages with periods 25, 50, 100 and 200.
- A ticker whose `last` is `None` is not modelled; every ticker carries a number.
- Balance dictionaries are sequences of entries (`seq<Holding>`), iterated in order. Each key is assumed to appear at most once, as in a dictionary; a repeated key is read at its first entry. The market list is a list in the source too (`seq<Market>`); the ticker map is a `map`.
- `MarketBuyAndLimitSell.TryFromData`: a service call with a missing field (`data.get` returning `None`, then a `TypeError`) is not modelled; the three fields are always present.
- The `if ticker:` test of `fetch_last_price` is modelled as presence in the map; an empty ticker dictionary is not modelled.
