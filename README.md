# Mock market maker: store, matching and quoting, in Dafny

This project models the core of a mock market-making venue written in C++ on
top of the QuickFIX library. The core has three parts:

- **Market state store** (`OrderBook`). It maps each symbol to its latest bid,
  ask and mid price. The mid is `(bid + ask) / 2` when both sides are positive
  and 0 otherwise.
- **Strategy engine** (`StrategyEngine`). It decides whether a client's
  NewOrderSingle fills or is rejected against the touch, and builds the
  ExecutionReport for it. It also computes the maker's theoretical AAPL quote,
  keeps the bookkeeping of its own open quotes, and holds the quoting on/off
  flag.
- **FIX acceptor application** (`MarketMakerApplication`). It remembers the
  client session that logged on, switches quoting on and off with that
  session, and forwards orders to the engine. When no engine is attached it
  rejects the order itself.

Files and modules:

- `fix.dfy`, module `Fix`: the message records.
  - Enumerated fields hold their FIX 4.2 one-character codes. Side is Buy `'1'`
    or Sell `'2'`. OrdType is Market `'1'` or Limit `'2'`. ExecType is Fill
    `'2'` or Rejected `'8'`. OrdStatus is Filled `'2'`, Canceled `'4'` or
    Rejected `'8'`.
  - Because the codes are characters, a code the core does not handle passes
    through exactly as it does in the C++ code.
  - `Sent(report, session)` stands for handing a report to `sendToTarget` for
    that session.
- `book.dfy`, module `Book`: the store.
  - Class `OrderBook` has a `map` field and a `Valid()` invariant: every entry's
    mid agrees with its own bid and ask.
  - One mutating method, `UpdateMarketData`, is specified by the pure function
    `Store`. The getters are read-only functions.
  - `Replay` applies a feed's sequence of updates. The lemmas about it relate
    many updates to each other: keys only grow, the last write wins, and
    consistency is kept.
- `strategy.dfy`, module `Strategy`: matching, quoting and own-quote
  bookkeeping.
  - `Match` is a pure function from one market snapshot and an order to a
    report. It can also return the `FieldNotFound` that a Limit order without a
    Price throws.
  - `QuoteAround` computes the quote. `SettleQuote` is the erase rule for the
    engine's open quotes.
  - Class `StrategyEngine` holds the running flag, the open-quote map and the
    store it reads.
- `app.dfy`, module `MarketMaker`: class `MarketMakerApplication` and the
  report it builds when no engine is attached.

Modelling choices:

- Prices and quantities are `real`. This abstracts IEEE doubles.
- `static_cast<int>` of a quantity is `TruncToInt`, which truncates toward
  zero.
- `std::round` is `RoundHalfAway`, which rounds half away from zero.
- The size drawn at random for the quote is a parameter, constrained to
  [100, 500].

Edge cases, as the code handles them:

- Quote prices are rounded with `std::round`, which sends an exact tie away
  from zero. In the exact-real model, a half-cent mid is always such a tie
  (`QuoteAroundTie`). In the code's doubles it often is not; see "## Left out".
- An order type that is neither Market nor Limit, against a usable market,
  keeps the defaults set at src/StrategyEngine.cpp:105-108. It is reported
  **Filled at price 0** (`OtherOrdTypeFilledAtZero`).
- A side other than Buy or Sell fills a Market order at the bid. On a Limit
  order it is never marketable.
- A Limit order without a Price throws FieldNotFound out of the handler, so
  no report is sent. This only happens with a usable market, because the
  no-market branch never reads the Price.
- Quantities are not validated. The engine reports the quantity truncated
  to an integer. The no-engine reject reports the quantity as received.
- The engine reads bid, ask and mid through three separately locked calls
  (src/StrategyEngine.cpp:101-103), so a concurrent update can land between
  them. The model takes one snapshot, which is what those three reads return
  when no update intervenes. The race itself is not modelled.

## Model

| member | source | states |
|---|---|---|
| `Book.MidOf` | src/OrderBook.h:39-43 | with both sides positive, mid is equidistant from bid and ask; otherwise it is 0; it is positive exactly when both sides are |
| `Book.Entry` | src/OrderBook.h:34-43 | the entry an update leaves keeps the given bid and ask, and its mid follows the mid-price rule |
| `Book.Lookup` | src/OrderBook.h:54-61 | a stored symbol reads as its entry; a symbol never written reads as all zeros |
| `Book.Replay` | src/OrderBook.h:30-49 | a run of updates keeps every existing key, and the symbol of the last update reads as that update wrote it |
| `Book.Store` | src/OrderBook.h:30-49 | the key set grows by exactly the updated symbol; its entry gets the new bid and ask and a consistent mid; every other entry is unchanged |
| `Book.ReadAfterStore` | src/OrderBook.h:34-61 | after an update, the updated symbol reads as written and every other symbol reads as before |
| `Book.StoreKeepsConsistency` | src/OrderBook.h:34-43 | an update with any bid and ask, zero or negative included, keeps every entry consistent |
| `Book.ReplayKeys` | src/OrderBook.h:30-49 | after any run of updates, the keys are the old keys plus the symbols written, so no entry is ever removed |
| `Book.ReplayKeepsConsistency` | src/OrderBook.h:30-49 | any run of updates keeps every entry's mid consistent with its bid and ask |
| `Book.ReplayLastWriteWins` | src/OrderBook.h:30-49 | a symbol reads as its last update in the run, whatever other symbols are updated after it |
| `Book.ReplayUntouched` | src/OrderBook.h:30-61 | a symbol the run never writes reads exactly as before the run |
| `Book.OrderBook.constructor` | src/OrderBook.h:28 | the store starts empty, and so valid |
| `Book.OrderBook.UpdateMarketData` | src/OrderBook.h:30-49 | the invariant is kept; the new map is `Store` of the old one; the symbol reads back as the new entry; every other symbol reads as before |
| `Book.OrderBook.GetMarketData` | src/OrderBook.h:54-61 | returns the stored entry or all zeros, without inserting; on a valid store the value returned is consistent |
| `Book.OrderBook.GetBestBid` | src/OrderBook.h:63-65 | the bid field of the symbol's entry; 0 for a symbol never written |
| `Book.OrderBook.GetBestAsk` | src/OrderBook.h:67-69 | the ask field of the symbol's entry; 0 for a symbol never written |
| `Book.OrderBook.GetMidPrice` | src/OrderBook.h:71-73 | the mid field of the symbol's entry; on a valid store it is non-zero exactly when bid and ask are both positive |
| `Strategy.TruncToInt` | src/StrategyEngine.cpp:157-158 | the cast truncates toward zero: the result is within 1 of the input, on the input's side of zero |
| `Strategy.TruncWhole` | src/StrategyEngine.cpp:157-158 | a whole-number quantity survives the cast unchanged |
| `Strategy.RoundHalfAway` | src/StrategyEngine.cpp:66-67 | the result is within one half of the input; an exact half rounds away from zero |
| `Strategy.RoundCents` | src/StrategyEngine.cpp:66-67 | the result is a whole number of cents within half a cent of the input; a tie at exactly half a cent goes up for a positive input and down for a negative one |
| `Strategy.RoundHalfAwayShift` | src/StrategyEngine.cpp:66-67 | for a non-negative input, rounding after adding a whole number equals rounding first and adding it after |
| `Strategy.RoundCentsOfCents` | src/StrategyEngine.cpp:66-67 | a price already in whole cents is left unchanged |
| `Strategy.HasMarketIffPositive` | src/StrategyEngine.cpp:110 | on an entry the store produced, the market is usable exactly when bid and ask are both positive |
| `Strategy.Decide` | src/StrategyEngine.cpp:105-144 | FieldNotFound(Price) exactly for a Limit order without a price against a usable market; otherwise filled exactly when the reject reason is empty; a fill needs a usable market and is at the ask for a Buy and the bid otherwise (0 for an order type that is neither Market nor Limit); a reject has price 0 and says "no market" exactly when the market is unusable |
| `Strategy.Report` | src/StrategyEngine.cpp:148-188 | OrdStatus is Filled or Rejected as decided; leaves plus cum is the truncated order quantity; LastQty is the cum quantity and LastPx the fill price (0 on a reject); ClOrdID, symbol and side are echoed; Text is set exactly when there is a reject reason |
| `Strategy.Match` | src/StrategyEngine.cpp:101-188 | FieldNotFound(Price) exactly for a Limit order without a price against a usable market; otherwise one report, Filled or Rejected, whose ExecType agrees with its OrdStatus |
| `Strategy.NoMarketRejects` | src/StrategyEngine.cpp:110-114 | when mid, bid or ask is 0, every order is rejected, whatever its type, side or price, with the no-market text |
| `Strategy.MarketOrderFills` | src/StrategyEngine.cpp:116-122 | with a usable market, a Market order fills in full: a Buy at the ask, any other side at the bid |
| `Strategy.LimitBuyMarketableIff` | src/StrategyEngine.cpp:124-136 | with a usable market, a Limit Buy fills exactly when price >= ask, and then at the ask (equality fills) |
| `Strategy.LimitSellMarketableIff` | src/StrategyEngine.cpp:124-136 | with a usable market, a Limit Sell fills exactly when price <= bid, and then at the bid (equality fills) |
| `Strategy.NotMarketableRejects` | src/StrategyEngine.cpp:137-141 | a Limit order that crosses neither side, any non-Buy/Sell side included, is rejected with the not-marketable text |
| `Strategy.OtherOrdTypeFilledAtZero` | src/StrategyEngine.cpp:105-144 | an order type that is neither Market nor Limit, against a usable market, is reported Filled at price 0 with no Text |
| `Strategy.QuantityAccounting` | src/StrategyEngine.cpp:157-182 | Filled: LeavesQty 0, CumQty = LastQty = qty, LastPx = AvgPx; Rejected: LeavesQty = qty, the rest 0; LeavesQty + CumQty = qty (qty truncated, so exact for whole quantities) |
| `Strategy.ReportIdentity` | src/StrategyEngine.cpp:148-188 | OrderID is "MM-ORD-"+ClOrdID and ExecID is "MM-EXEC-"+ClOrdID; ClOrdID, symbol and side are echoed; Text is present exactly on a rejection |
| `Strategy.OrderIDInjective` | src/StrategyEngine.cpp:149 | two reports with the same OrderID come from orders with the same ClOrdID |
| `Strategy.QuoteAround` | src/StrategyEngine.cpp:55-67 | no quote exactly when mid is 0; otherwise bid and ask are exactly mid − 0.02 and mid + 0.02 rounded to cents, so whole cents within half a cent of those; their spread is between 0.03 and 0.05, and, in exact reals, exactly 0.04 once mid is at least 0.02; the size is the drawn one |
| `Strategy.QuoteAroundTie` | src/StrategyEngine.cpp:61-67 | a mid of 100.005 (bid 100.00, ask 100.01) is quoted 99.99 / 100.03: both half-cent ties round away from zero (in the exact-real model; these two ties are exact in doubles too) |
| `Strategy.QuoteAroundWholeCents` | src/StrategyEngine.cpp:61-67 | a mid of whole cents is quoted exactly two cents below and above it |
| `Strategy.SettleQuote` | src/StrategyEngine.cpp:196-213 | an open quote disappears only if the report names it and has status Filled or Canceled, and then it does disappear; the other entries are unchanged; a report without a ClOrdID changes nothing |
| `Strategy.StrategyEngine.constructor` | src/StrategyEngine.cpp:10-14 | quoting starts stopped, with no open quotes, on the given store |
| `Strategy.StrategyEngine.SetMarketMakerApp` | src/StrategyEngine.h:26 | records whether an application is linked for sending reports |
| `Strategy.StrategyEngine.StartQuoting` | src/StrategyEngine.cpp:25-43 | afterwards quoting runs; a thread is started exactly when it was not running before |
| `Strategy.StrategyEngine.StopQuoting` | src/StrategyEngine.cpp:45-53 | afterwards quoting is stopped; the thread is joined exactly when it was running before |
| `Strategy.StrategyEngine.ManageQuotes` | src/StrategyEngine.cpp:55-67 | the cycle's quote is the AAPL quote around the store's AAPL mid; on a valid store, a quote exists exactly when both AAPL sides are positive |
| `Strategy.StrategyEngine.OnNewOrderSingle` | src/StrategyEngine.cpp:76-194 | the order is matched against the store's snapshot of its symbol, and the store is only read; the report goes to the originating session when an application is linked; a missing Price is thrown |
| `Strategy.StrategyEngine.OnOurOwnExecutionReport` | src/StrategyEngine.cpp:196-213 | the open quotes become `SettleQuote` of the old ones |
| `Strategy.ScenarioMarketBuy` | src/StrategyEngine.cpp:116-122 | with bid 170.00 and ask 170.02, a Market Buy of 50 fills 50 at 170.02 and leaves 0 |
| `Strategy.ScenarioLimitSell` | src/StrategyEngine.cpp:130-136 | with the same market, a Limit Sell of 30 at 169.90 fills 30 at 170.00 |
| `Strategy.ScenarioUnknownSymbol` | src/StrategyEngine.cpp:110-114 | a Market Buy on a symbol never written is rejected with the no-market text |
| `Strategy.ScenarioQuote` | src/StrategyEngine.cpp:55-67 | bid 170.00 and ask 170.02 give mid 170.01 and the quote 169.99 / 170.03 |
| `MarketMaker.NoEngineReject` | src/MarketMakerApp.cpp:77-97 | Rejected with LeavesQty = qty as received, CumQty 0, AvgPx 0; OrderID "MM-REJECT-"+ClOrdID, ExecID "MM-REJECT-EXEC-"+ClOrdID, the no-engine Text; the ClOrdID, LastQty and LastPx fields are not set |
| `MarketMaker.RejectIDsDistinct` | src/MarketMakerApp.cpp:78-79 | the application's reject IDs never equal the OrderID or ExecID the engine derives for any order |
| `MarketMaker.MarketMakerApplication.constructor` | src/MarketMakerApp.cpp:12-14 | holds the given store and engine; the session ID starts as the default |
| `MarketMaker.MarketMakerApplication.OnLogon` | src/MarketMakerApp.cpp:20-26 | the stored session becomes the one that logged on; an attached engine is quoting afterwards; nothing else of the engine changes |
| `MarketMaker.MarketMakerApplication.OnLogout` | src/MarketMakerApp.cpp:28-34 | the stored session is reset to the default, whichever session logged out; an attached engine has stopped quoting |
| `MarketMaker.MarketMakerApplication.OnMessage` | src/MarketMakerApp.cpp:57-104 | with an engine, the order and session are forwarded unchanged and the engine's response is the result; without one, the no-engine reject is sent to the originating session |
| `MarketMaker.MarketMakerApplication.GetClientSessionID` | src/MarketMakerApp.cpp:128-130 | returns the stored session ID |
| `MarketMaker.NoEngineAlwaysRejects` | src/MarketMakerApp.cpp:61-102 | with no engine, every order is rejected to its own session, with LeavesQty + CumQty = qty |
| `MarketMaker.WiredDispatch` | src/MarketMakerApp.cpp:59-60 | with an engine that is linked back to the application, every order that does not throw reaches its session with the report `Match` gives for the store's snapshot |

## Left out

- Threads, sleeps and locks are not modelled. This covers the quoting thread loop (src/StrategyEngine.cpp:29-41), its check that a client session exists and is logged on, its caching of the client session ID, the feed thread, and the store's mutex. Every operation is modelled as one atomic step; only the running flag of `startQuoting`/`stopQuoting` is kept.
- The race in matching is not modelled. Matching reads bid, ask and mid in three separately locked calls, so they can come from different updates. The model uses one snapshot.
- Randomness is not modelled. The quote size is a parameter in [100, 500]. The feed's prices and the mock client's orders are not modelled.
- IEEE double arithmetic is replaced by exact `real` arithmetic. This affects the halving of bid + ask, mid ∓ 0.02 and the multiplication by 100 before rounding. `std::round` is modelled mathematically, not bit for bit. One consequence: a decimal half-cent tie is usually not an exact tie in doubles, so the code may round it either way. For bid 170.00 / ask 170.03, mid − 0.02 times 100 comes out as 16999.499999999996 in doubles, and the code quotes 169.99 / 170.04 (spread 0.05). The model, in exact reals, quotes 170.00 / 170.04. The exact 0.04 spread that `Strategy.QuoteAround` states for mid ≥ 0.02 therefore holds for the real-number model only.
- Strategy.Match, MarketMaker.NoEngineAlwaysRejects: some `message.get` calls throw FieldNotFound when their field is missing. On the engine path, src/StrategyEngine.cpp:84-88 reads five fields: ClOrdID, Symbol, Side, OrderQty and OrdType. On the no-engine path, src/MarketMakerApp.cpp:71-74 reads four: ClOrdID, Side, OrderQty and Symbol. OrderQty is not a required field in FIX 4.2. `Order` always carries these fields, so only the missing-Price throw is modelled. `Strategy.Match` holds for orders that carry the five; `MarketMaker.NoEngineAlwaysRejects` holds for orders that carry the four.
- Strategy.TruncToInt: the C++ cast is undefined for quantities outside the range of `int`. The model truncates any real.
- Console logging is not modelled.
- The QuickFIX plumbing is not modelled: `crack`, getting and setting fields, `sendToTarget`, session lookup, the exception handling in `sendExecutionReportToClient`, and the library's reaction to a FieldNotFound that escapes the handler. The no-engine path reads ClOrdID from the report after sending it and, since that field is never set, throws and logs; this is plumbing and not modelled.
- TransactTime is a clock reading and is not part of the report record.
- The empty or logging-only callbacks `onCreate`, `toAdmin`, `toApp` and `fromAdmin` are not modelled. `fromApp` only calls `crack`.
- The engine's destructor, which calls `stopQuoting`, is not modelled, because the model does not track object lifetimes.
- Two pieces of bookkeeping are never used by the code and are not modelled: `generateNewClOrdID` and `m_clOrdIDtoOrderID`. Nothing in the code adds to the open-quote map either, so it is always empty; the erase rule is modelled anyway.
- The mock client (src/MockTradeClient.cpp), the mock feed (src/MockMarketDataSource.h), the empty market data processor (src/MarketDataProcessor.h) and the two `main` programs are outside the core and are not part of this model.
