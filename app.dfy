/**
 * The FIX acceptor application (src/MarketMakerApp.cpp): it remembers the one
 * client session that logged on, switches quoting on and off with the session,
 * and hands client orders to the strategy engine, rejecting them itself when
 * no engine is attached.
 */
module MarketMaker {
  import opened Fix
  import opened Book
  import opened Strategy

  const NoEngineText := "No active strategy engine to process orders."

  /** The report the application sends itself when no strategy engine is attached. */
  function NoEngineReject(o: Order): (r: ExecutionReport)
    ensures r.execType == ExecTypeRejected && r.ordStatus == OrdStatusRejected
    ensures r.leavesQty == o.orderQty && r.cumQty == 0.0 && r.avgPx == 0.0
    ensures r.orderID == "MM-REJECT-" + o.clOrdID && r.execID == "MM-REJECT-EXEC-" + o.clOrdID
    ensures r.symbol == o.symbol && r.side == o.side
    ensures r.text == Some(NoEngineText)
    ensures r.clOrdID.None? && r.lastQty.None? && r.lastPx.None?
  {
    ExecutionReport(
      "MM-REJECT-" + o.clOrdID,
      "MM-REJECT-EXEC-" + o.clOrdID,
      ExecTransNew,
      ExecTypeRejected,
      OrdStatusRejected,
      o.symbol,
      o.side,
      o.orderQty,
      0.0,
      0.0,
      None,
      None,
      None,
      Some(NoEngineText))
  }

  /** The IDs of the application's own rejects never coincide with the IDs the engine derives. */
  lemma {:induction false} RejectIDsDistinct(o1: Order, md: MarketData, o2: Order)
    requires Match(md, o2).Ok?
    ensures NoEngineReject(o1).orderID != Match(md, o2).value.orderID
    ensures NoEngineReject(o1).execID != Match(md, o2).value.execID
  {
    var r1, r2 := NoEngineReject(o1), Match(md, o2).value;
    ReportIdentity(md, o2);
    assert r1.orderID[3] == 'R' && r2.orderID[3] == 'O';
    assert r1.execID[3] == 'R' && r2.execID[3] == 'E';
  }

  class MarketMakerApplication {
    /** m_orderBook (held, never used by the application itself). */
    const book: OrderBook
    /** m_strategyEngine; null when none is attached. */
    const engine: StrategyEngine?
    /** m_clientSessionID. */
    var clientSessionID: SessionID

    constructor (book: OrderBook, engine: StrategyEngine?)
      ensures this.book == book && this.engine == engine
      ensures clientSessionID == DefaultSession
    {
      this.book := book;
      this.engine := engine;
      clientSessionID := DefaultSession;
    }

    /** Remembers the session and starts quoting if an engine is attached. */
    method OnLogon(session: SessionID)
      modifies this, engine
      ensures GetClientSessionID() == session
      ensures engine != null ==> engine.quotingRunning
      ensures engine != null ==> engine.ourOpenQuotes == old(engine.ourOpenQuotes) && engine.appLinked == old(engine.appLinked)
    {
      clientSessionID := session;
      if engine != null {
        var _ := engine.StartQuoting();
      }
    }

    /** Stops quoting if an engine is attached and forgets the session, whichever session logged out. */
    method OnLogout(session: SessionID)
      modifies this, engine
      ensures GetClientSessionID() == DefaultSession
      ensures engine != null ==> !engine.quotingRunning
      ensures engine != null ==> engine.ourOpenQuotes == old(engine.ourOpenQuotes) && engine.appLinked == old(engine.appLinked)
    {
      if engine != null {
        var _ := engine.StopQuoting();
      }
      clientSessionID := DefaultSession;
    }

    /**
     * A client order from a session: forwarded unchanged, with the same session,
     * to the engine when there is one; otherwise rejected back to that session.
     */
    function OnMessage(o: Order, session: SessionID): (resp: Response)
      reads this, engine, if engine != null then {engine.book} else {}
      ensures engine != null ==> resp == engine.OnNewOrderSingle(o, session)
      ensures engine == null ==> resp == Sent(NoEngineReject(o), session)
      ensures resp.Sent? ==> resp.session == session && resp.report.symbol == o.symbol
    {
      if engine != null then engine.OnNewOrderSingle(o, session)
      else Sent(NoEngineReject(o), session)
    }

    function GetClientSessionID(): (id: SessionID)
      reads this
      ensures id == clientSessionID
    {
      clientSessionID
    }
  }

  /** With no engine attached, every order, of any type and with or without a price, is rejected to its own session. */
  lemma NoEngineAlwaysRejects(app: MarketMakerApplication, o: Order, session: SessionID)
    requires app.engine == null
    ensures app.OnMessage(o, session).Sent?
    ensures app.OnMessage(o, session).session == session
    ensures app.OnMessage(o, session).report.ordStatus == OrdStatusRejected
    ensures app.OnMessage(o, session).report.leavesQty + app.OnMessage(o, session).report.cumQty == o.orderQty
  {
  }

  /**
   * A wired-up deployment (engine attached and linked back to the application):
   * every order that does not throw reaches its session with the engine's report.
   */
  lemma WiredDispatch(app: MarketMakerApplication, o: Order, session: SessionID)
    requires app.engine != null && app.engine.appLinked
    requires Match(app.engine.book.GetMarketData(o.symbol), o).Ok?
    ensures app.OnMessage(o, session) == Sent(Match(app.engine.book.GetMarketData(o.symbol), o).value, session)
  {
  }
}
