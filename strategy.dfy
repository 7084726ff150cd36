/**
 * The strategy engine (src/StrategyEngine.cpp): the accept-or-reject matching
 * decision for a client order, the maker's theoretical quote for AAPL, the
 * bookkeeping of its own open quotes and the quoting on/off flag.
 */
module Strategy {
  import opened Fix
  import opened Book

  const NoMarketText := "No valid market data available for matching."
  const NotMarketableText := "Limit order not immediately marketable against current book."

  /** The only symbol the engine quotes. */
  const QuotedSymbol := "AAPL"

  /** Half of the 0.04 desired spread, put on each side of mid. */
  const HalfSpread: real := 0.02

  const MinQuoteSize: int := 100
  const MaxQuoteSize: int := 500

  // ---------------------------------------------------------------------------
  // Numeric conversions of the C++ code

  /** static_cast<int> of a double: truncation toward zero. */
  function TruncToInt(x: real): (n: int)
    ensures x >= 0.0 ==> n as real <= x < n as real + 1.0
    ensures x < 0.0 ==> n as real - 1.0 < x <= n as real
  {
    if x >= 0.0 then x.Floor else -((-x).Floor)
  }

  /** A whole-number quantity survives the cast unchanged. */
  lemma TruncWhole(k: int)
    ensures TruncToInt(k as real) == k
  {
  }

  /** std::round: the nearest integer, halfway cases away from zero. */
  function RoundHalfAway(x: real): (n: int)
    ensures x - 0.5 <= n as real <= x + 0.5
    ensures n as real - x == 0.5 ==> x > 0.0
    ensures x - n as real == 0.5 ==> x < 0.0
  {
    if x >= 0.0 then (x + 0.5).Floor else -((-x + 0.5).Floor)
  }

  /** A price that is a whole number of cents. */
  predicate WholeCents(x: real)
  {
    (x * 100.0).Floor as real == x * 100.0
  }

  /** std::round(x * 100.0) / 100.0: the nearest whole-cent price, half a cent rounding away from zero. */
  function RoundCents(x: real): (r: real)
    ensures WholeCents(r)
    ensures x - 0.005 <= r <= x + 0.005
    ensures r - x == 0.005 ==> x > 0.0
    ensures x - r == 0.005 ==> x < 0.0
  {
    var n := RoundHalfAway(x * 100.0);
    assert n as real / 100.0 - x == (n as real - x * 100.0) / 100.0;
    n as real / 100.0
  }

  /** For non-negative inputs, rounding commutes with adding a whole number. */
  lemma RoundHalfAwayShift(y: real, k: nat)
    requires y >= 0.0
    ensures RoundHalfAway(y + k as real) == RoundHalfAway(y) + k
  {
    var f := (y + 0.5).Floor;
    assert f as real <= y + 0.5 < f as real + 1.0;
    assert (y + k as real + 0.5).Floor == f + k;
  }

  /** Rounding leaves a whole-cent price as it is. */
  lemma {:induction false} RoundCentsOfCents(k: int)
    ensures RoundCents(k as real / 100.0) == k as real / 100.0
  {
    var n := RoundHalfAway(k as real / 100.0 * 100.0);
    assert k as real / 100.0 * 100.0 == k as real;
    assert n == k;
  }

  // ---------------------------------------------------------------------------
  // Matching (onNewOrderSingle)

  /** The snapshot's market is usable: none of mid, bid and ask is zero. */
  predicate HasMarket(md: MarketData)
  {
    !(md.mid == 0.0 || md.bid == 0.0 || md.ask == 0.0)
  }

  /** On an entry the store produced, the market is usable exactly when bid and ask are both positive. */
  lemma HasMarketIffPositive(md: MarketData)
    requires Consistent(md)
    ensures HasMarket(md) <==> md.bid > 0.0 && md.ask > 0.0
  {
  }

  /** The values the matching code leaves in its locals ordStatus, rejectReason and fillPrice. */
  datatype Decision = Decision(filled: bool, rejectReason: string, fillPrice: real)

  /**
   * The branch structure of onNewOrderSingle. The defaults (filled, no reason,
   * price 0) stand when the order type is neither Market nor Limit. Reading
   * the Price of a Limit order that has none throws FieldNotFound.
   */
  function Decide(md: MarketData, o: Order): (r: Result<Decision>)
    ensures r.FieldNotFound? <==> HasMarket(md) && o.ordType == OrdTypeLimit && o.price.None?
    ensures r.Ok? ==> (r.value.filled <==> r.value.rejectReason == "")
    ensures r.Ok? && !r.value.filled ==> r.value.fillPrice == 0.0
    ensures r.Ok? && !r.value.filled ==> (r.value.rejectReason == NoMarketText <==> !HasMarket(md))
    ensures r.Ok? && r.value.filled ==> HasMarket(md)
    ensures r.Ok? && r.value.filled ==>
      r.value.fillPrice == if o.ordType == OrdTypeMarket || o.ordType == OrdTypeLimit
                           then (if o.side == SideBuy then md.ask else md.bid) else 0.0
  {
    if !HasMarket(md) then
      Ok(Decision(false, NoMarketText, 0.0))
    else if o.ordType == OrdTypeMarket then
      Ok(Decision(true, "", if o.side == SideBuy then md.ask else md.bid))
    else if o.ordType == OrdTypeLimit then
      if o.price.None? then FieldNotFound(PriceTag)
      // ask != 0 repeats the source's own test; past the guard above it always holds.
      else if o.side == SideBuy && o.price.value >= md.ask && md.ask != 0.0 then
        Ok(Decision(true, "", md.ask))
      // Likewise bid != 0.
      else if o.side == SideSell && o.price.value <= md.bid && md.bid != 0.0 then
        Ok(Decision(true, "", md.bid))
      else
        Ok(Decision(false, NotMarketableText, 0.0))
    else
      Ok(Decision(true, "", 0.0))
  }

  /** The execution report built from the order and the decision. */
  function Report(o: Order, d: Decision): (r: ExecutionReport)
    ensures r.ordStatus == (if d.filled then OrdStatusFilled else OrdStatusRejected)
    ensures r.leavesQty + r.cumQty == TruncToInt(o.orderQty) as real
    ensures r.lastQty == Some(r.cumQty)
    ensures r.lastPx == Some(if d.filled then r.avgPx else 0.0) && r.avgPx == d.fillPrice
    ensures r.clOrdID == Some(o.clOrdID) && r.symbol == o.symbol && r.side == o.side
    ensures r.text.Some? <==> d.rejectReason != ""
  {
    var qty := TruncToInt(o.orderQty) as real;
    ExecutionReport(
      "MM-ORD-" + o.clOrdID,
      "MM-EXEC-" + o.clOrdID,
      ExecTransNew,
      if d.filled then ExecTypeFill else ExecTypeRejected,
      if d.filled then OrdStatusFilled else OrdStatusRejected,
      o.symbol,
      o.side,
      if d.filled then 0.0 else qty,
      if d.filled then qty else 0.0,
      d.fillPrice,
      Some(o.clOrdID),
      Some(if d.filled then qty else 0.0),
      Some(if d.filled then d.fillPrice else 0.0),
      if d.rejectReason == "" then None else Some(d.rejectReason))
  }

  /**
   * The report onNewOrderSingle sends for an order against one snapshot of the
   * symbol's market, or the field whose absence made it throw.
   */
  function Match(md: MarketData, o: Order): (r: Result<ExecutionReport>)
    ensures r.FieldNotFound? <==> HasMarket(md) && o.ordType == OrdTypeLimit && o.price.None?
    ensures r.FieldNotFound? ==> r.tag == PriceTag
    ensures r.Ok? ==> r.value.ordStatus == OrdStatusFilled || r.value.ordStatus == OrdStatusRejected
    ensures r.Ok? ==> r.value.execType == (if r.value.ordStatus == OrdStatusFilled then ExecTypeFill else ExecTypeRejected)
  {
    match Decide(md, o)
    case Ok(d) => Ok(Report(o, d))
    case FieldNotFound(tag) => FieldNotFound(tag)
  }

  /** Without a usable market every order is rejected, whatever its type, side or price. */
  lemma NoMarketRejects(md: MarketData, o: Order)
    requires !HasMarket(md)
    ensures Match(md, o).Ok?
    ensures Match(md, o).value.ordStatus == OrdStatusRejected
    ensures Match(md, o).value.text == Some(NoMarketText)
  {
  }

  /** With a usable market a Market order fills in full: a Buy at the ask, anything else at the bid. */
  lemma MarketOrderFills(md: MarketData, o: Order)
    requires HasMarket(md) && o.ordType == OrdTypeMarket
    ensures Match(md, o).Ok?
    ensures Match(md, o).value.ordStatus == OrdStatusFilled
    ensures Match(md, o).value.avgPx == if o.side == SideBuy then md.ask else md.bid
    ensures Match(md, o).value.cumQty == TruncToInt(o.orderQty) as real
  {
  }

  /** A Limit Buy fills, at the ask, exactly when its price reaches the ask; equality is marketable. */
  lemma LimitBuyMarketableIff(md: MarketData, o: Order)
    requires HasMarket(md) && o.ordType == OrdTypeLimit && o.side == SideBuy && o.price.Some?
    ensures Match(md, o).Ok?
    ensures Match(md, o).value.ordStatus == OrdStatusFilled <==> o.price.value >= md.ask
    ensures Match(md, o).value.ordStatus == OrdStatusFilled ==> Match(md, o).value.avgPx == md.ask
  {
  }

  /** A Limit Sell fills, at the bid, exactly when its price is at or below the bid. */
  lemma LimitSellMarketableIff(md: MarketData, o: Order)
    requires HasMarket(md) && o.ordType == OrdTypeLimit && o.side == SideSell && o.price.Some?
    ensures Match(md, o).Ok?
    ensures Match(md, o).value.ordStatus == OrdStatusFilled <==> o.price.value <= md.bid
    ensures Match(md, o).value.ordStatus == OrdStatusFilled ==> Match(md, o).value.avgPx == md.bid
  {
  }

  /** A Limit order that is not immediately marketable (any side other than Buy or Sell included) is rejected with its own text. */
  lemma NotMarketableRejects(md: MarketData, o: Order)
    requires HasMarket(md) && o.ordType == OrdTypeLimit && o.price.Some?
    requires !(o.side == SideBuy && o.price.value >= md.ask) && !(o.side == SideSell && o.price.value <= md.bid)
    ensures Match(md, o).Ok?
    ensures Match(md, o).value.ordStatus == OrdStatusRejected
    ensures Match(md, o).value.text == Some(NotMarketableText)
  {
  }

  /** An order type that is neither Market nor Limit is reported Filled at price 0 when the market is usable. */
  lemma OtherOrdTypeFilledAtZero(md: MarketData, o: Order)
    requires HasMarket(md) && o.ordType != OrdTypeMarket && o.ordType != OrdTypeLimit
    ensures Match(md, o).Ok?
    ensures Match(md, o).value.ordStatus == OrdStatusFilled
    ensures Match(md, o).value.avgPx == 0.0 && Match(md, o).value.lastPx == Some(0.0)
    ensures Match(md, o).value.text.None?
  {
  }

  /**
   * Quantity accounting: a fill leaves nothing and reports the whole (truncated)
   * quantity at the fill price; a rejection leaves it all and reports nothing.
   * Leaves plus cumulative is the order quantity whenever that is a whole number.
   */
  lemma QuantityAccounting(md: MarketData, o: Order)
    requires Match(md, o).Ok?
    ensures var r := Match(md, o).value;
      var qty := TruncToInt(o.orderQty) as real;
      && (r.ordStatus == OrdStatusFilled ==>
            r.leavesQty == 0.0 && r.cumQty == qty && r.lastQty == Some(qty) && r.lastPx == Some(r.avgPx))
      && (r.ordStatus == OrdStatusRejected ==>
            r.leavesQty == qty && r.cumQty == 0.0 && r.lastQty == Some(0.0) && r.lastPx == Some(0.0) && r.avgPx == 0.0)
      && r.leavesQty + r.cumQty == qty
      && (o.orderQty == o.orderQty.Floor as real ==> r.leavesQty + r.cumQty == o.orderQty)
  {
    if o.orderQty == o.orderQty.Floor as real {
      TruncWhole(o.orderQty.Floor);
    }
  }

  /** Report identity: derived IDs, the echoed ClOrdID, symbol and side, and Text exactly on a rejection. */
  lemma ReportIdentity(md: MarketData, o: Order)
    requires Match(md, o).Ok?
    ensures var r := Match(md, o).value;
      && r.orderID == "MM-ORD-" + o.clOrdID
      && r.execID == "MM-EXEC-" + o.clOrdID
      && r.clOrdID == Some(o.clOrdID)
      && r.symbol == o.symbol && r.side == o.side
      && (r.text.Some? <==> r.ordStatus == OrdStatusRejected)
  {
  }

  /** The derived OrderID identifies the client's order: distinct ClOrdIDs never share one. */
  lemma {:induction false} OrderIDInjective(md1: MarketData, o1: Order, md2: MarketData, o2: Order)
    requires Match(md1, o1).Ok? && Match(md2, o2).Ok?
    requires Match(md1, o1).value.orderID == Match(md2, o2).value.orderID
    ensures o1.clOrdID == o2.clOrdID
  {
    var p := "MM-ORD-";
    var a, b := p + o1.clOrdID, p + o2.clOrdID;
    assert a == b;
    assert a[|p|..] == o1.clOrdID;
    assert b[|p|..] == o2.clOrdID;
  }

  // ---------------------------------------------------------------------------
  // Theoretical quotes (manageQuotes)

  datatype DesiredQuote = DesiredQuote(symbol: string, bidPrice: real, askPrice: real, size: int)

  /**
   * The quote around a mid price: nothing when mid is 0; otherwise mid minus and
   * plus half the spread, each rounded to whole cents, with the drawn size.
   */
  function QuoteAround(symbol: string, mid: real, size: int): (q: Option<DesiredQuote>)
    requires MinQuoteSize <= size <= MaxQuoteSize
    ensures q.None? <==> mid == 0.0
    ensures q.Some? ==> q.value.symbol == symbol && q.value.size == size
    ensures q.Some? ==> WholeCents(q.value.bidPrice) && WholeCents(q.value.askPrice)
    ensures q.Some? ==> mid - HalfSpread - 0.005 <= q.value.bidPrice <= mid - HalfSpread + 0.005
    ensures q.Some? ==> mid + HalfSpread - 0.005 <= q.value.askPrice <= mid + HalfSpread + 0.005
    ensures q.Some? ==> q.value.bidPrice == RoundCents(mid - HalfSpread) && q.value.askPrice == RoundCents(mid + HalfSpread)
    ensures q.Some? ==> 0.03 <= q.value.askPrice - q.value.bidPrice <= 0.05
    ensures q.Some? && mid >= HalfSpread ==> q.value.askPrice - q.value.bidPrice == 2.0 * HalfSpread
  {
    if mid == 0.0 then None
    else
      var bid, ask := RoundCents(mid - HalfSpread), RoundCents(mid + HalfSpread);
      assert mid >= HalfSpread ==> ask - bid == 2.0 * HalfSpread by {
        if mid >= HalfSpread {
          var y := (mid - HalfSpread) * 100.0;
          assert (mid + HalfSpread) * 100.0 == y + 4 as real;
          RoundHalfAwayShift(y, 4);
        }
      }
      Some(DesiredQuote(symbol, bid, ask, size))
  }

  /**
   * Half-cent ties round away from zero: bid 100.00 / ask 100.01 (mid 100.005)
   * puts 9998.5 and 10002.5 cents before rounding, and quotes 99.99 / 100.03.
   * These two values are exact ties in binary64 doubles as well.
   */
  lemma {:induction false} QuoteAroundTie(size: int)
    requires MinQuoteSize <= size <= MaxQuoteSize
    ensures QuoteAround(QuotedSymbol, MidOf(100.00, 100.01), size)
         == Some(DesiredQuote(QuotedSymbol, 99.99, 100.03, size))
  {
    assert MidOf(100.00, 100.01) == 100.005;
    assert RoundHalfAway((100.005 - HalfSpread) * 100.0) == 9999;
    assert RoundHalfAway((100.005 + HalfSpread) * 100.0) == 10003;
  }

  /** A mid of whole cents quotes exactly two cents either side of it. */
  lemma {:induction false} QuoteAroundWholeCents(symbol: string, k: int, size: int)
    requires k != 0 && MinQuoteSize <= size <= MaxQuoteSize
    ensures QuoteAround(symbol, k as real / 100.0, size)
         == Some(DesiredQuote(symbol, (k - 2) as real / 100.0, (k + 2) as real / 100.0, size))
  {
    var mid := k as real / 100.0;
    assert mid - HalfSpread == (k - 2) as real / 100.0;
    assert mid + HalfSpread == (k + 2) as real / 100.0;
    RoundCentsOfCents(k - 2);
    RoundCentsOfCents(k + 2);
  }

  // ---------------------------------------------------------------------------
  // Own-quote bookkeeping (onOurOwnExecutionReport)

  /**
   * The open quotes after one of our own execution reports: its ClOrdID is
   * erased when present and the status is Filled or Canceled. A report
   * without a ClOrdID throws FieldNotFound, which is caught, so nothing changes.
   */
  function SettleQuote(quotes: map<string, Order>, report: ExecutionReport): (r: map<string, Order>)
    ensures forall k :: k in r ==> k in quotes && r[k] == quotes[k]
    ensures forall k :: k in quotes && k !in r ==>
      report.clOrdID == Some(k) && (report.ordStatus == OrdStatusFilled || report.ordStatus == OrdStatusCanceled)
    ensures report.clOrdID.Some? && report.clOrdID.value in quotes
         && (report.ordStatus == OrdStatusFilled || report.ordStatus == OrdStatusCanceled)
         ==> report.clOrdID.value !in r
  {
    match report.clOrdID
    case None => quotes
    case Some(id) =>
      if id in quotes && (report.ordStatus == OrdStatusFilled || report.ordStatus == OrdStatusCanceled)
      then quotes - {id}
      else quotes
  }

  // ---------------------------------------------------------------------------
  // The engine object

  class StrategyEngine {
    /** m_orderBook: the store the engine reads, fixed at construction. */
    const book: OrderBook
    /** Whether m_mmApp points at an application to send reports through. */
    var appLinked: bool
    /** m_quotingRunning. */
    var quotingRunning: bool
    /** m_ourOpenQuotes: our ClOrdID to the quote order we sent. */
    var ourOpenQuotes: map<string, Order>

    constructor (book: OrderBook, appLinked: bool)
      ensures this.book == book && this.appLinked == appLinked
      ensures !quotingRunning && ourOpenQuotes == map[]
    {
      this.book := book;
      this.appLinked := appLinked;
      quotingRunning := false;
      ourOpenQuotes := map[];
    }

    method SetMarketMakerApp(linked: bool)
      modifies this`appLinked
      ensures appLinked == linked
    {
      appLinked := linked;
    }

    /** Raises the running flag; `started` says whether it was down, i.e. whether a quoting thread is spawned. */
    method StartQuoting() returns (started: bool)
      modifies this`quotingRunning
      ensures quotingRunning
      ensures started == !old(quotingRunning)
    {
      started := !quotingRunning;
      if !quotingRunning {
        quotingRunning := true;
      }
    }

    /** Lowers the running flag; `stopped` says whether it was up, i.e. whether the quoting thread is joined. */
    method StopQuoting() returns (stopped: bool)
      modifies this`quotingRunning
      ensures !quotingRunning
      ensures stopped == old(quotingRunning)
    {
      stopped := quotingRunning;
      if quotingRunning {
        quotingRunning := false;
      }
    }

    /** One quoting cycle: the desired AAPL quote, given the size drawn for it. */
    function ManageQuotes(size: int): (q: Option<DesiredQuote>)
      reads book
      requires MinQuoteSize <= size <= MaxQuoteSize
      ensures q == QuoteAround(QuotedSymbol, book.GetMidPrice(QuotedSymbol), size)
      ensures book.Valid() ==> (q.Some? <==> book.GetBestBid(QuotedSymbol) > 0.0 && book.GetBestAsk(QuotedSymbol) > 0.0)
    {
      QuoteAround(QuotedSymbol, book.GetMidPrice(QuotedSymbol), size)
    }

    /**
     * Handles a client order: matches it against the store's snapshot of its
     * symbol and sends the report to the originating session. The store is only read.
     */
    function OnNewOrderSingle(o: Order, session: SessionID): (resp: Response)
      reads this, book
      ensures Match(book.GetMarketData(o.symbol), o).FieldNotFound? ==> resp == Thrown(PriceTag)
      ensures Match(book.GetMarketData(o.symbol), o).Ok? ==>
        resp == if appLinked then Sent(Match(book.GetMarketData(o.symbol), o).value, session) else NothingSent
    {
      var md := MarketData(book.GetBestBid(o.symbol), book.GetBestAsk(o.symbol), book.GetMidPrice(o.symbol));
      match Match(md, o)
      case FieldNotFound(tag) => Thrown(tag)
      case Ok(report) => if appLinked then Sent(report, session) else NothingSent
    }

    /** Handles an execution report for one of our own quotes. */
    method OnOurOwnExecutionReport(report: ExecutionReport)
      modifies this`ourOpenQuotes
      ensures ourOpenQuotes == SettleQuote(old(ourOpenQuotes), report)
    {
      if report.clOrdID.Some? {
        var id := report.clOrdID.value;
        if id in ourOpenQuotes {
          if report.ordStatus == OrdStatusFilled || report.ordStatus == OrdStatusCanceled {
            ourOpenQuotes := ourOpenQuotes - {id};
          }
        }
      }
    }
  }

  // ---------------------------------------------------------------------------
  // Worked cases

  /** A Market Buy of 50 AAPL against bid 170.00 / ask 170.02 fills 50 at 170.02. */
  lemma ScenarioMarketBuy(entries: map<string, MarketData>)
    ensures var md := Lookup(Store(entries, "AAPL", 170.00, 170.02), "AAPL");
      var r := Match(md, Order("C1", "AAPL", SideBuy, 50.0, OrdTypeMarket, None));
      r.Ok? && r.value.ordStatus == OrdStatusFilled && r.value.avgPx == 170.02
      && r.value.cumQty == 50.0 && r.value.leavesQty == 0.0
  {
    TruncWhole(50);
  }

  /** A Limit Sell of 30 at 169.90 against bid 170.00 fills 30 at 170.00. */
  lemma ScenarioLimitSell(entries: map<string, MarketData>)
    ensures var md := Lookup(Store(entries, "AAPL", 170.00, 170.02), "AAPL");
      var r := Match(md, Order("C2", "AAPL", SideSell, 30.0, OrdTypeLimit, Some(169.90)));
      r.Ok? && r.value.ordStatus == OrdStatusFilled && r.value.avgPx == 170.00 && r.value.cumQty == 30.0
  {
    TruncWhole(30);
  }

  /** An order for a symbol never written is rejected for want of market data. */
  lemma ScenarioUnknownSymbol(entries: map<string, MarketData>)
    requires "MSFT" !in entries
    ensures var r := Match(Lookup(entries, "MSFT"), Order("C3", "MSFT", SideBuy, 10.0, OrdTypeMarket, None));
      r.Ok? && r.value.ordStatus == OrdStatusRejected && r.value.text == Some(NoMarketText)
  {
  }

  /** Bid 170.00 / ask 170.02 gives mid 170.01 and the desired quote 169.99 / 170.03. */
  lemma ScenarioQuote(entries: map<string, MarketData>, size: int)
    requires MinQuoteSize <= size <= MaxQuoteSize
    ensures var mid := Lookup(Store(entries, "AAPL", 170.00, 170.02), "AAPL").mid;
      QuoteAround("AAPL", mid, size) == Some(DesiredQuote("AAPL", 169.99, 170.03, size))
  {
    assert Lookup(Store(entries, "AAPL", 170.00, 170.02), "AAPL").mid == 17001 as real / 100.0;
    QuoteAroundWholeCents("AAPL", 17001, size);
  }
}
