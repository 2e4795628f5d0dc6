/**
 The events receiver (src/roq/deribit/gateway/udp_events.cpp): what one frame and one message
 do, as functions on the channel state and as methods on the shared state. Unlike the snapshot
 receiver it collects on any accepted frame.
 */
module UdpEvents {
  import opened Words
  import opened Channels
  import opened Books
  import opened SharedState
  import SequenceFilter

  // One Book message of an instrument that is known and not discarded

  function OnServed(s: ChannelState, f: Fragment, multiplier: real): Effect {
    var c := WithLevels(s, f.levels, multiplier);
    if f.isLast then
      Effect(WithoutBook(c), [UpdateCall(f.instrumentId, f.prevChangeId, f.changeId, c.bids, c.asks)])
    else
      Effect(if c.instrumentId == 0 then c.(instrumentId := f.instrumentId) else c, [])
  }

  /** One Book message, whatever is known of its instrument. */
  function OnFragment(s: ChannelState, table: Table, f: Fragment): Effect {
    if Served(table, f.instrumentId) then OnServed(s, f, table[f.instrumentId].multiplier) else Effect(s, [])
  }

  // Trades and tickers

  /** One trade of a Trades message, and as published. */
  datatype TradeEntry = TradeEntry(side: Side, price: real, amount: real, tradeId: nat, timestamp: nat)
  datatype Trade = Trade(side: Side, price: real, quantity: real, tradeId: nat)
  datatype TradeSummary = TradeSummary(symbol: string, trades: seq<Trade>, time: nat)

  datatype Quote = Quote(bidPrice: real, bidAmount: real, askPrice: real, askAmount: real, timestamp: nat)
  datatype TopOfBook =
    TopOfBook(symbol: string, bidPrice: real, bidQuantity: real, askPrice: real, askQuantity: real, time: nat)

  function ToTrade(e: TradeEntry, multiplier: real): Trade {
    Trade(e.side, e.price, e.amount * multiplier, e.tradeId)
  }

  /** The summary of a message: all its trades, in order, at the latest of their times. */
  predicate Summarizes(summary: TradeSummary, info: Instrument, entries: seq<TradeEntry>) {
    && summary.symbol == info.symbol
    && |summary.trades| == |entries|
    && (forall i: nat :: i < |entries| ==> summary.trades[i] == ToTrade(entries[i], info.multiplier))
    && (forall i: nat :: i < |entries| ==> entries[i].timestamp <= summary.time)
    && (summary.time == 0 || exists i: nat :: i < |entries| && entries[i].timestamp == summary.time)
  }

  function TopOf(info: Instrument, q: Quote): TopOfBook {
    TopOfBook(info.symbol, q.bidPrice, q.bidAmount * info.multiplier, q.askPrice, q.askAmount * info.multiplier, q.timestamp)
  }

  /** Each amount is scaled, and stays with its price and side. */
  lemma {:induction false} TopFields(info: Instrument, q: Quote)
    ensures var top := TopOf(info, q);
            && top.symbol == info.symbol && top.time == q.timestamp
            && top.bidPrice == q.bidPrice && top.bidQuantity == q.bidAmount * info.multiplier
            && top.askPrice == q.askPrice && top.askQuantity == q.askAmount * info.multiplier
  {
  }

  lemma {:induction false} TradeFields(summary: TradeSummary, info: Instrument, entries: seq<TradeEntry>, i: nat)
    requires Summarizes(summary, info, entries) && i < |entries|
    ensures |summary.trades| == |entries|
    ensures var trade, e := summary.trades[i], entries[i];
            && trade.side == e.side && trade.price == e.price && trade.tradeId == e.tradeId
            && trade.quantity == e.amount * info.multiplier
  {
  }

  class UDPEvents {
    const publishMarketByPrice: bool
    const publishTradeSummary: bool
    const publishTopOfBook: bool
    const shared: Shared
    const channels: ChannelMap
    const lastTrades: SequenceFilter.Filter
    const lastTicker: SequenceFilter.Filter
    var tradeSummaries: seq<TradeSummary>
    var topsOfBook: seq<TopOfBook>

    constructor (publishMarketByPrice: bool, publishTradeSummary: bool, publishTopOfBook: bool, shared: Shared)
      ensures this.shared == shared && this.publishMarketByPrice == publishMarketByPrice
      ensures this.publishTradeSummary == publishTradeSummary && this.publishTopOfBook == publishTopOfBook
      ensures fresh(channels) && channels.Valid() && channels.channels == map[]
      ensures fresh(lastTrades) && fresh(lastTicker) && lastTrades != lastTicker
      ensures lastTrades.cache == map[] && lastTicker.cache == map[]
      ensures tradeSummaries == [] && topsOfBook == []
    {
      this.publishMarketByPrice, this.publishTradeSummary := publishMarketByPrice, publishTradeSummary;
      this.publishTopOfBook, this.shared := publishTopOfBook, shared;
      tradeSummaries, topsOfBook := [], [];
      channels := new ChannelMap();
      lastTrades := new SequenceFilter.Filter();
      lastTicker := new SequenceFilter.Filter();
    }

    method OnFrame(id: uint16, n: uint32) returns (result: bool)
      requires channels.Valid()
      modifies channels, channels.channels.Values
      ensures channels.Valid()
      ensures result == Accepts(old(channels.StateOf(id)), n)
      ensures channels.StateOf(id) == Gate(old(channels.StateOf(id)), n)
      ensures forall k :: k != id ==> channels.StateOf(k) == old(channels.StateOf(k))
    {
      var channel := channels.Get(id);
      result := channel.Receive(n);
      if !result {
        channel.Reset();
      }
    }

    /** One Book message does to channel and sequencers what `OnFragment` says, and nothing else. */
    method OnBook(id: uint16, f: Fragment, readyAfter: bool)
      requires channels.Valid()
      modifies channels, channels.channels.Values, shared`calls, shared`sequencersReady
      ensures channels.Valid()
      ensures forall k :: k != id ==> channels.StateOf(k) == old(channels.StateOf(k))
      ensures var before := old(channels.StateOf(id));
              var effect := if publishMarketByPrice then OnFragment(before, shared.instruments, f) else Effect(before, []);
              channels.StateOf(id) == effect.channel && shared.calls == old(shared.calls) + effect.calls
      ensures forall i :: i != f.instrumentId ==> (i in shared.sequencersReady <==> i in old(shared.sequencersReady))
      ensures shared.calls == old(shared.calls) ==> shared.sequencersReady == old(shared.sequencersReady)
    {
      if !publishMarketByPrice {
        return;
      }
      var channel := channels.Get(id);
      var found, served := shared.FindInstrument(f.instrumentId);
      if served.Some? {
        OnServedBook(channel, f, served.value.multiplier, readyAfter);
      }
    }

    /** A sequencer call may end in BadState and clear the sequencer; either way the buffers are done with. */
    method OnServedBook(channel: Channel, f: Fragment, multiplier: real, readyAfter: bool)
      modifies channel, shared`calls, shared`sequencersReady
      ensures var effect := OnServed(old(channel.State()), f, multiplier);
              channel.State() == effect.channel && shared.calls == old(shared.calls) + effect.calls
      ensures forall i :: i != f.instrumentId ==> (i in shared.sequencersReady <==> i in old(shared.sequencersReady))
      ensures shared.calls == old(shared.calls) ==> shared.sequencersReady == old(shared.sequencersReady)
    {
      hide IsSide, Scaled;
      channel.Append(f.levels, multiplier);
      if !f.isLast {
        if channel.instrumentId == 0 {
          channel.instrumentId := f.instrumentId;
        }
        return;
      }
      shared.CallSequencer(UpdateCall(f.instrumentId, f.prevChangeId, f.changeId, channel.bids, channel.asks), readyAfter);
      channel.ClearBook();
    }

    /** A trade summary goes out exactly when the frame number passes and the instrument is served. */
    method OnTrades(n: uint32, instrumentId: uint32, entries: seq<TradeEntry>)
      modifies this`tradeSummaries, lastTrades
      ensures lastTrades.cache == if publishTradeSummary then SequenceFilter.Tested(old(lastTrades.cache), instrumentId, n)
                                  else old(lastTrades.cache)
      ensures if publishTradeSummary && SequenceFilter.Passes(old(lastTrades.cache), instrumentId, n)
                 && Served(shared.instruments, instrumentId)
              then |tradeSummaries| == |old(tradeSummaries)| + 1 && tradeSummaries[..|old(tradeSummaries)|] == old(tradeSummaries)
                   && Summarizes(tradeSummaries[|old(tradeSummaries)|], shared.instruments[instrumentId], entries)
              else tradeSummaries == old(tradeSummaries)
    {
      if !publishTradeSummary {
        return;
      }
      var passes := lastTrades.TestSequence(instrumentId, n);
      if passes {
        var found, served := shared.FindInstrument(instrumentId);
        if served.Some? {
          var summary := Summary(served.value, entries);
          tradeSummaries := tradeSummaries + [summary];
        }
      }
    }

    method Summary(info: Instrument, entries: seq<TradeEntry>) returns (summary: TradeSummary)
      ensures Summarizes(summary, info, entries)
    {
      summary := TradeSummary(info.symbol, [], 0);
      for i := 0 to |entries|
        invariant Summarizes(summary, info, entries[..i])
      {
        var e := entries[i];
        var time := if summary.time < e.timestamp then e.timestamp else summary.time;
        ghost var before := summary;
        summary := TradeSummary(info.symbol, summary.trades + [ToTrade(e, info.multiplier)], time);
        SummaryGrows(before, summary, info, entries, i);
      }
      assert entries[..|entries|] == entries;
    }

    /** Likewise for a top of book. */
    method OnTicker(n: uint32, instrumentId: uint32, quote: Quote)
      modifies this`topsOfBook, lastTicker
      ensures lastTicker.cache == if publishTopOfBook then SequenceFilter.Tested(old(lastTicker.cache), instrumentId, n)
                                  else old(lastTicker.cache)
      ensures topsOfBook == old(topsOfBook)
                            + if publishTopOfBook && SequenceFilter.Passes(old(lastTicker.cache), instrumentId, n)
                                 && Served(shared.instruments, instrumentId)
                              then [TopOf(shared.instruments[instrumentId], quote)] else []
    {
      if !publishTopOfBook {
        return;
      }
      var passes := lastTicker.TestSequence(instrumentId, n);
      if passes {
        var found, served := shared.FindInstrument(instrumentId);
        if served.Some? {
          var bidQuantity := quote.bidAmount * served.value.multiplier;
          var askQuantity := quote.askAmount * served.value.multiplier;
          var top := TopOfBook(served.value.symbol, quote.bidPrice, bidQuantity, quote.askPrice, askQuantity, quote.timestamp);
          assert top == TopOf(served.value, quote);
          topsOfBook := topsOfBook + [top];
        }
      }
    }
  }

  lemma SummaryGrows(before: TradeSummary, after: TradeSummary, info: Instrument, entries: seq<TradeEntry>, i: nat)
    requires i < |entries| && Summarizes(before, info, entries[..i])
    requires after.symbol == info.symbol && after.trades == before.trades + [ToTrade(entries[i], info.multiplier)]
    requires after.time == if before.time < entries[i].timestamp then entries[i].timestamp else before.time
    ensures Summarizes(after, info, entries[..i + 1])
  {
    var front := entries[..i + 1];
    assert forall j: nat :: j < i ==> front[j] == entries[..i][j];
    assert front[i] == entries[i];
    if before.time >= entries[i].timestamp && before.time != 0 {
      var j: nat :| j < i && entries[..i][j].timestamp == before.time;
      assert front[j].timestamp == after.time;
    } else if before.time < entries[i].timestamp {
      assert front[i].timestamp == after.time;
    }
  }
}
