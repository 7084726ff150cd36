/**
 * The market state store (class OrderBook of src/OrderBook.h): a map from
 * symbol to the latest bid, ask and derived mid price.
 */
module Book {

  /** OrderBook::MarketData: the touch of one symbol and its mid price. */
  datatype MarketData = MarketData(bid: real, ask: real, mid: real)

  /** The default-constructed MarketData. */
  const Zero := MarketData(0.0, 0.0, 0.0)

  /** The mid-price rule: halfway between bid and ask when both are positive, 0 otherwise. */
  function MidOf(bid: real, ask: real): (mid: real)
    ensures bid > 0.0 && ask > 0.0 ==> mid - bid == ask - mid
    ensures !(bid > 0.0 && ask > 0.0) ==> mid == 0.0
    ensures mid > 0.0 <==> bid > 0.0 && ask > 0.0
  {
    if bid > 0.0 && ask > 0.0 then (bid + ask) / 2.0 else 0.0
  }

  /** An entry is consistent when its mid obeys the mid-price rule for its own bid and ask. */
  predicate Consistent(md: MarketData)
  {
    md.mid == MidOf(md.bid, md.ask)
  }

  ghost predicate AllConsistent(entries: map<string, MarketData>)
  {
    forall s :: s in entries ==> Consistent(entries[s])
  }

  /** The entry that an update with this bid and ask leaves behind. */
  function Entry(bid: real, ask: real): (md: MarketData)
    ensures md.bid == bid && md.ask == ask && Consistent(md)
  {
    MarketData(bid, ask, MidOf(bid, ask))
  }

  /** getMarketData's lookup: the stored entry, or all zeros for a symbol never written. */
  function Lookup(entries: map<string, MarketData>, symbol: string): (md: MarketData)
    ensures symbol in entries ==> md == entries[symbol]
    ensures symbol !in entries ==> md == Zero
  {
    if symbol in entries then entries[symbol] else Zero
  }

  /** The whole map after updateMarketData(symbol, bid, ask). */
  function Store(entries: map<string, MarketData>, symbol: string, bid: real, ask: real): (r: map<string, MarketData>)
    ensures r.Keys == entries.Keys + {symbol}
    ensures r[symbol].bid == bid && r[symbol].ask == ask && Consistent(r[symbol])
    ensures forall t :: t in entries && t != symbol ==> r[t] == entries[t]
  {
    entries[symbol := Entry(bid, ask)]
  }

  /** Reading after a write: the written symbol reads as written, every other symbol as before. */
  lemma ReadAfterStore(entries: map<string, MarketData>, symbol: string, bid: real, ask: real, t: string)
    ensures Lookup(Store(entries, symbol, bid, ask), t) == if t == symbol then Entry(bid, ask) else Lookup(entries, t)
  {
  }

  /** An update keeps every entry consistent, whatever the bid and ask (negative or zero included). */
  lemma StoreKeepsConsistency(entries: map<string, MarketData>, symbol: string, bid: real, ask: real)
    requires AllConsistent(entries)
    ensures AllConsistent(Store(entries, symbol, bid, ask))
  {
  }

  /** One call updateMarketData(symbol, bid, ask) made by the market data feed. */
  datatype Update = Update(symbol: string, bid: real, ask: real)

  /** The map after the feed's updates, applied in order. */
  function Replay(entries: map<string, MarketData>, feed: seq<Update>): (r: map<string, MarketData>)
    ensures entries.Keys <= r.Keys
    ensures feed != [] ==> Lookup(r, feed[|feed| - 1].symbol) == Entry(feed[|feed| - 1].bid, feed[|feed| - 1].ask)
    decreases |feed|
  {
    if feed == [] then entries
    else
      var u := feed[|feed| - 1];
      Store(Replay(entries, feed[..|feed| - 1]), u.symbol, u.bid, u.ask)
  }

  function FedSymbols(feed: seq<Update>): set<string>
  {
    set i | 0 <= i < |feed| :: feed[i].symbol
  }

  /** No entry is ever removed: the key set is the old one plus the symbols the feed wrote. */
  lemma {:induction false} ReplayKeys(entries: map<string, MarketData>, feed: seq<Update>)
    ensures Replay(entries, feed).Keys == entries.Keys + FedSymbols(feed)
    decreases |feed|
  {
    if feed != [] {
      var init := feed[..|feed| - 1];
      ReplayKeys(entries, init);
      assert FedSymbols(feed) == FedSymbols(init) + {feed[|feed| - 1].symbol} by {
        forall s | s in FedSymbols(feed) ensures s in FedSymbols(init) + {feed[|feed| - 1].symbol} {
          var i :| 0 <= i < |feed| && feed[i].symbol == s;
          if i < |feed| - 1 { assert init[i] == feed[i]; }
        }
        forall s | s in FedSymbols(init) ensures s in FedSymbols(feed) {
          var i :| 0 <= i < |init| && init[i].symbol == s;
          assert feed[i] == init[i];
        }
      }
    }
  }

  /** Any run of updates keeps every stored entry consistent. */
  lemma {:induction false} ReplayKeepsConsistency(entries: map<string, MarketData>, feed: seq<Update>)
    requires AllConsistent(entries)
    ensures AllConsistent(Replay(entries, feed))
    decreases |feed|
  {
    if feed != [] {
      var u := feed[|feed| - 1];
      ReplayKeepsConsistency(entries, feed[..|feed| - 1]);
      StoreKeepsConsistency(Replay(entries, feed[..|feed| - 1]), u.symbol, u.bid, u.ask);
    }
  }

  /** The last update of a symbol decides what it reads as, however many other updates follow it. */
  lemma {:induction false} ReplayLastWriteWins(entries: map<string, MarketData>, feed: seq<Update>, i: nat)
    requires i < |feed|
    requires forall j :: i < j < |feed| ==> feed[j].symbol != feed[i].symbol
    ensures Lookup(Replay(entries, feed), feed[i].symbol) == Entry(feed[i].bid, feed[i].ask)
    decreases |feed|
  {
    var init := feed[..|feed| - 1];
    var u := feed[|feed| - 1];
    ReadAfterStore(Replay(entries, init), u.symbol, u.bid, u.ask, feed[i].symbol);
    if i < |feed| - 1 {
      assert init[i] == feed[i];
      forall j | i < j < |init| ensures init[j].symbol != init[i].symbol {
        assert init[j] == feed[j];
      }
      ReplayLastWriteWins(entries, init, i);
    }
  }

  /** A symbol the feed never writes reads exactly as before the feed ran. */
  lemma {:induction false} ReplayUntouched(entries: map<string, MarketData>, feed: seq<Update>, symbol: string)
    requires symbol !in FedSymbols(feed)
    ensures Lookup(Replay(entries, feed), symbol) == Lookup(entries, symbol)
    decreases |feed|
  {
    if feed != [] {
      var init := feed[..|feed| - 1];
      var u := feed[|feed| - 1];
      assert symbol != u.symbol;
      forall i | 0 <= i < |init| ensures init[i].symbol != symbol {
        assert init[i] == feed[i];
      }
      ReplayUntouched(entries, init, symbol);
      ReadAfterStore(Replay(entries, init), u.symbol, u.bid, u.ask, symbol);
    }
  }

  class OrderBook {
    var symbolData: map<string, MarketData>

    /** Every stored entry's mid agrees with its own bid and ask. */
    ghost predicate Valid()
      reads this
    {
      AllConsistent(symbolData)
    }

    constructor ()
      ensures Valid() && symbolData == map[]
    {
      symbolData := map[];
    }

    /**
     * Creates the symbol's entry if it is missing, then overwrites bid and ask and
     * recomputes mid. Any bid and ask are accepted.
     */
    method UpdateMarketData(symbol: string, bid: real, ask: real)
      requires Valid()
      modifies this
      ensures Valid()
      ensures symbolData == Store(old(symbolData), symbol, bid, ask)
      ensures GetMarketData(symbol) == Entry(bid, ask)
      ensures forall t :: t != symbol ==> GetMarketData(t) == old(GetMarketData(t))
    {
      var data := if symbol in symbolData then symbolData[symbol] else Zero;
      data := data.(bid := bid, ask := ask);
      if bid > 0.0 && ask > 0.0 {
        data := data.(mid := (bid + ask) / 2.0);
      } else {
        data := data.(mid := 0.0);
      }
      symbolData := symbolData[symbol := data];
    }

    /** A copy of the symbol's entry; all zeros for a symbol never written. Reading inserts nothing. */
    function GetMarketData(symbol: string): (md: MarketData)
      reads this
      ensures symbol in symbolData ==> md == symbolData[symbol]
      ensures symbol !in symbolData ==> md == Zero
      ensures Valid() ==> Consistent(md)
    {
      Lookup(symbolData, symbol)
    }

    function GetBestBid(symbol: string): (bid: real)
      reads this
      ensures bid == GetMarketData(symbol).bid
      ensures symbol !in symbolData ==> bid == 0.0
    {
      GetMarketData(symbol).bid
    }

    function GetBestAsk(symbol: string): (ask: real)
      reads this
      ensures ask == GetMarketData(symbol).ask
      ensures symbol !in symbolData ==> ask == 0.0
    {
      GetMarketData(symbol).ask
    }

    /** The mid price; on a valid store it is non-zero exactly when both bid and ask are positive. */
    function GetMidPrice(symbol: string): (mid: real)
      reads this
      ensures mid == GetMarketData(symbol).mid
      ensures Valid() ==> (mid != 0.0 <==> GetBestBid(symbol) > 0.0 && GetBestAsk(symbol) > 0.0)
    {
      GetMarketData(symbol).mid
    }
  }
}
