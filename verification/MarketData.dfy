/**
 Market data over FIX (src/roq/deribit/gateway/market_data.cpp): book updates, the latch that
 holds back incrementals after a bad one, and the requests sent. Publishing is configurable;
 prices and quantities are reals.
 */
module MarketData {
  import opened Words
  import opened Batching

  datatype EntryType = Bid | Offer | Trade | IndexValue | SettlementPrice | Unsupported

  datatype Entry = Entry(entryType: EntryType, price: real, size: real, date: nat)

  datatype StatisticsType = OpenInterest | MarkPrice | Index | Settlement

  datatype Statistic = Statistic(kind: StatisticsType, value: real)

  datatype MDUpdateType = Unspecified | IncrementalRefresh | FullRefresh

  datatype Output =
    | Book(symbol: string, bids: seq<Entry>, asks: seq<Entry>, snapshot: bool, time: nat, last: bool)
    | Trades(symbol: string, trades: seq<Entry>, time: nat, last: bool)
    | Stats(symbol: string, statistics: seq<Statistic>, snapshot: bool, time: nat, last: bool)
    | Request(subscribe: bool, depth: nat, updateType: MDUpdateType, symbols: seq<string>)
    | BadSnapshot(symbol: string)

  datatype Settings = Settings(publishBooks: bool, publishTrades: bool, depth: nat, requestMaxSize: nat)

  /** What happens to the session; `bad` is how the dispatcher takes the book, should it be offered one. */
  datatype Event =
    | Incremental(symbol: string, openInterest: real, markPrice: real, entries: seq<Entry>, bad: bool)
    | Snapshot(symbol: string, entries: seq<Entry>, bad: bool)
    | Disconnected
    | Subscribe(symbols: seq<string>)

  // What a message says

  function Select(entries: seq<Entry>, t: EntryType): seq<Entry> {
    if entries == [] then [] else
      var n := |entries| - 1;
      Select(entries[..n], t) + (if entries[n].entryType == t then [entries[n]] else [])
  }

  function StatisticsIn(entries: seq<Entry>): seq<Statistic> {
    if entries == [] then [] else
      var n := |entries| - 1;
      StatisticsIn(entries[..n]) + StatisticOf(entries[n])
  }

  function StatisticOf(e: Entry): seq<Statistic> {
    match e.entryType
    case IndexValue => [Statistic(Index, e.price)]
    case SettlementPrice => [Statistic(Settlement, e.price)]
    case _ => []
  }

  function LatestDate(entries: seq<Entry>): nat {
    if entries == [] then 0 else
      var n := |entries| - 1;
      if LatestDate(entries[..n]) < entries[n].date then entries[n].date else LatestDate(entries[..n])
  }

  predicate HasBook(entries: seq<Entry>) {
    !(Select(entries, Bid) == [] && Select(entries, Offer) == [])
  }

  // Requests

  function RequestFor(config: Settings, subscribe: bool, symbols: seq<string>): Output {
    if subscribe then
      Request(true, config.depth, if config.depth != 0 then IncrementalRefresh else FullRefresh, symbols)
    else Request(false, 0, Unspecified, symbols)
  }

  /** A request to receive updates, at the configured depth. */
  predicate IsSubscribe(config: Settings, o: Output) {
    && o.Request? && o.subscribe
    && o.depth == config.depth
    && (if config.depth != 0 then o.updateType == IncrementalRefresh else o.updateType == FullRefresh)
  }

  /** A request to receive no more of them. */
  predicate IsUnsubscribe(o: Output) {
    o.Request? && !o.subscribe && o.depth == 0 && o.updateType == Unspecified
  }

  function Requests(config: Settings, subscribe: bool, batches: seq<seq<string>>): seq<Output> {
    if batches == [] then [] else
      var n := |batches| - 1;
      Requests(config, subscribe, batches[..n]) + [RequestFor(config, subscribe, batches[n])]
  }

  function RequestsFor(config: Settings, subscribe: bool, symbols: seq<string>): seq<Output> {
    Requests(config, subscribe, Batches(symbols, MaxSize(config.requestMaxSize, symbols)))
  }

  /** One unsubscribe, then one subscribe. */
  function Resubscription(config: Settings, symbol: string): seq<Output> {
    [RequestFor(config, false, [symbol]), RequestFor(config, true, [symbol])]
  }

  // Steps

  datatype Result = Result(latch: set<string>, outputs: seq<Output>)

  function BookOf(config: Settings, e: Event): seq<Output>
    requires e.Incremental? || e.Snapshot?
  {
    if HasBook(e.entries) && config.publishBooks then
      [Book(e.symbol, Select(e.entries, Bid), Select(e.entries, Offer), e.Snapshot?, LatestDate(e.entries),
            e.Snapshot? && StatisticsIn(e.entries) == [])]
    else []
  }

  function TradesOf(config: Settings, e: Event): seq<Output>
    requires e.Incremental?
  {
    if Select(e.entries, Trade) != [] && config.publishTrades then
      [Trades(e.symbol, Select(e.entries, Trade), LatestDate(e.entries), false)]
    else []
  }

  function StatsOf(e: Event): seq<Output>
    requires e.Incremental? || e.Snapshot?
  {
    var own := if e.Incremental? then [Statistic(OpenInterest, e.openInterest), Statistic(MarkPrice, e.markPrice)] else [];
    var all := own + StatisticsIn(e.entries);
    if all != [] then [Stats(e.symbol, all, e.Snapshot?, LatestDate(e.entries), true)] else []
  }

  function OnIncremental(config: Settings, latch: set<string>, e: Event): Result
    requires e.Incremental?
  {
    var book := if e.symbol in latch then [] else BookOf(config, e);
    var refused := book != [] && e.bad;
    Result(if refused then latch + {e.symbol} else latch,
           book + (if refused then Resubscription(config, e.symbol) else []) + TradesOf(config, e) + StatsOf(e))
  }

  function OnSnapshot(config: Settings, latch: set<string>, e: Event): Result
    requires e.Snapshot?
  {
    var book := BookOf(config, e);
    Result(latch - {e.symbol}, book + if book != [] && e.bad then [BadSnapshot(e.symbol)] else StatsOf(e))
  }

  function Step(config: Settings, latch: set<string>, e: Event): Result {
    match e
    case Incremental(_, _, _, _, _) => OnIncremental(config, latch, e)
    case Snapshot(_, _, _) => OnSnapshot(config, latch, e)
    case Disconnected => Result(latch, [])
    case Subscribe(symbols) =>
      Result(latch, RequestsFor(config, true, symbols))
  }

  class MarketData {
    const config: Settings
    var latch: set<string>
    var log: seq<Output>

    constructor (config: Settings)
      ensures this.config == config && latch == {} && log == []
    {
      this.config := config;
      latch, log := {}, [];
    }

    /** Splits a message's entries by type. */
    method Sort(entries: seq<Entry>, own: seq<Statistic>)
      returns (bids: seq<Entry>, asks: seq<Entry>, trades: seq<Entry>, statistics: seq<Statistic>, time: nat)
      ensures bids == Select(entries, Bid) && asks == Select(entries, Offer) && trades == Select(entries, Trade)
      ensures statistics == own + StatisticsIn(entries)
      ensures time == LatestDate(entries)
    {
      bids, asks, trades, statistics, time := [], [], [], own, 0;
      for i := 0 to |entries|
        invariant bids == Select(entries[..i], Bid) && asks == Select(entries[..i], Offer) && trades == Select(entries[..i], Trade)
        invariant statistics == own + StatisticsIn(entries[..i])
        invariant time == LatestDate(entries[..i])
      {
        var item := entries[i];
        assert entries[..i + 1][..i] == entries[..i];
        Assoc(own, StatisticsIn(entries[..i]), StatisticOf(item));
        if time < item.date {
          time := item.date;
        }
        match item.entryType {
          case Bid => bids := bids + [item];
          case Offer => asks := asks + [item];
          case Trade => trades := trades + [item];
          case IndexValue => statistics := statistics + [Statistic(Index, item.price)];
          case SettlementPrice => statistics := statistics + [Statistic(Settlement, item.price)];
          case Unsupported =>
        }
      }
      assert entries[..|entries|] == entries;
    }

    /** Sends `symbols` in batches, every request from the one buffer. */
    method SendBatches(subscribe: bool, symbols: seq<string>)
      requires symbols != []
      modifies this`log
      ensures log == old(log) + RequestsFor(config, subscribe, symbols)
      ensures forall o :: o in log[|old(log)|..] ==> if subscribe then IsSubscribe(config, o) else IsUnsubscribe(o)
    {
      hide Batches, Requests;
      var maxSize := MaxSize(config.requestMaxSize, symbols);
      var relatedSym := new string[maxSize];
      ghost var sent: seq<seq<string>> := [];
      assert symbols[0..] == symbols && symbols[|symbols|..] == [];
      NothingToSend(config, subscribe, maxSize);
      var offset := 0;
      while offset < |symbols|
        invariant sent + Batches(symbols[AtMost(offset, |symbols|)..], maxSize) == Batches(symbols, maxSize)
        invariant log == old(log) + Requests(config, subscribe, sent)
      {
        var length := AtMost(|symbols| - offset, maxSize);
        for i := 0 to length
          invariant relatedSym[..i] == symbols[offset..offset + i]
          invariant log == old(log) + Requests(config, subscribe, sent)
        {
          relatedSym[i] := symbols[offset + i];
        }
        ghost var batch := relatedSym[..length];
        NextBatch(symbols, offset, maxSize);
        Assoc(sent, [batch], Batches(symbols[AtMost(offset + maxSize, |symbols|)..], maxSize));
        RequestsGrow(config, subscribe, sent, batch);
        Assoc(old(log), Requests(config, subscribe, sent), [RequestFor(config, subscribe, batch)]);
        if subscribe {
          log := log + [Request(true, config.depth, if config.depth != 0 then IncrementalRefresh else FullRefresh, relatedSym[..length])];
        } else {
          log := log + [Request(false, 0, Unspecified, relatedSym[..length])];
        }
        sent := sent + [batch];
        offset := offset + maxSize;
      }
      assert symbols[AtMost(offset, |symbols|)..] == [];
      assert sent == Batches(symbols, maxSize);
      RequestsAreOfTheirKind(config, subscribe, sent);
      assert log[|old(log)|..] == Requests(config, subscribe, sent);
    }

    method SubscribeTo(symbols: seq<string>)
      modifies this`log
      ensures log == old(log) + RequestsFor(config, true, symbols)
      ensures forall o :: o in log[|old(log)|..] ==> IsSubscribe(config, o)
    {
      if symbols == [] {
        return;
      }
      SendBatches(true, symbols);
    }

    method UnsubscribeFrom(symbols: seq<string>)
      requires symbols != []
      modifies this`log
      ensures log == old(log) + RequestsFor(config, false, symbols)
      ensures forall o :: o in log[|old(log)|..] ==> IsUnsubscribe(o)
    {
      SendBatches(false, symbols);
    }

    method Resubscribe(symbol: string)
      modifies this
      ensures latch == old(latch) + {symbol}
      ensures log == old(log) + if symbol in old(latch) then [] else Resubscription(config, symbol)
      ensures symbol !in old(latch) ==>
                && |log| == |old(log)| + 2
                && IsUnsubscribe(log[|log| - 2]) && log[|log| - 2].symbols == [symbol]
                && IsSubscribe(config, log[|log| - 1]) && log[|log| - 1].symbols == [symbol]
    {
      if symbol in latch {
        return;
      }
      latch := latch + {symbol};
      OneSymbol(config, symbol);
      ResubscriptionIs(config, symbol);
      hide RequestsFor, Resubscription;
      Assoc(old(log), RequestsFor(config, false, [symbol]), RequestsFor(config, true, [symbol]));
      UnsubscribeFrom([symbol]);
      SubscribeTo([symbol]);
    }

    method OnIncrementalRefresh(e: Event)
      requires e.Incremental?
      modifies this
      ensures latch == Step(config, old(latch), e).latch
      ensures log == old(log) + Step(config, old(latch), e).outputs
    {
      hide Select, StatisticsIn, LatestDate, Resubscription;
      ghost var book := if e.symbol in latch then [] else BookOf(config, e);
      ghost var requests := if book != [] && e.bad then Resubscription(config, e.symbol) else [];
      Assoc4(log, book, requests, TradesOf(config, e));
      Assoc(log, book + requests + TradesOf(config, e), StatsOf(e));
      var bids, asks, trades, statistics, time :=
        Sort(e.entries, [Statistic(OpenInterest, e.openInterest), Statistic(MarkPrice, e.markPrice)]);
      if !(bids == [] && asks == []) && config.publishBooks {
        if e.symbol !in latch {
          log := log + [Book(e.symbol, bids, asks, false, time, statistics == [] && trades == [])];
          if e.bad {
            Resubscribe(e.symbol);
          }
        }
      }
      assert log == old(log) + book + requests;
      if trades != [] && config.publishTrades {
        log := log + [Trades(e.symbol, trades, time, statistics == [])];
      }
      assert log == old(log) + book + requests + TradesOf(config, e);
      if statistics != [] {
        log := log + [Stats(e.symbol, statistics, false, time, true)];
      }
    }

    method OnSnapshotFullRefresh(e: Event)
      requires e.Snapshot?
      modifies this
      ensures latch == Step(config, old(latch), e).latch
      ensures log == old(log) + Step(config, old(latch), e).outputs
    {
      hide Select, StatisticsIn, LatestDate;
      ghost var book := BookOf(config, e);
      Assoc(log, book, if book != [] && e.bad then [BadSnapshot(e.symbol)] else StatsOf(e));
      latch := latch - {e.symbol};
      var bids, asks, _, statistics, time := Sort(e.entries, []);
      if !(bids == [] && asks == []) && config.publishBooks {
        log := log + [Book(e.symbol, bids, asks, true, time, statistics == [])];
        if e.bad {
          log := log + [BadSnapshot(e.symbol)];
          return;
        }
      }
      if statistics != [] {
        log := log + [Stats(e.symbol, statistics, true, time, true)];
      }
    }
  }

  function AtMost(n: nat, limit: nat): nat {
    if n < limit then n else limit
  }

  lemma NothingToSend(config: Settings, subscribe: bool, max: nat)
    requires max > 0
    ensures Batches([], max) == [] && Requests(config, subscribe, []) == []
  {
  }

  lemma RequestsGrow(config: Settings, subscribe: bool, batches: seq<seq<string>>, batch: seq<string>)
    ensures Requests(config, subscribe, batches + [batch])
         == Requests(config, subscribe, batches) + [RequestFor(config, subscribe, batch)]
  {
    assert (batches + [batch])[..|batches|] == batches;
  }

  lemma {:induction false} RequestsAreOfTheirKind(config: Settings, subscribe: bool, batches: seq<seq<string>>)
    ensures forall o :: o in Requests(config, subscribe, batches) ==>
              if subscribe then IsSubscribe(config, o) else IsUnsubscribe(o)
  {
    if batches != [] {
      RequestsAreOfTheirKind(config, subscribe, batches[..|batches| - 1]);
    }
  }

  lemma ResubscriptionIs(config: Settings, symbol: string)
    ensures var r := Resubscription(config, symbol);
            && |r| == 2
            && IsUnsubscribe(r[0]) && r[0].symbols == [symbol]
            && IsSubscribe(config, r[1]) && r[1].symbols == [symbol]
  {
  }

  function SymbolsIn(requests: seq<Output>): seq<seq<string>>
    requires forall o :: o in requests ==> o.Request?
  {
    seq(|requests|, k requires 0 <= k < |requests| => assert requests[k] in requests; requests[k].symbols)
  }

  lemma {:induction false} SymbolsInRequests(config: Settings, subscribe: bool, batches: seq<seq<string>>)
    ensures var r := Requests(config, subscribe, batches);
            (forall o :: o in r ==> o.Request?) && SymbolsIn(r) == batches
  {
    if batches != [] {
      var n := |batches| - 1;
      SymbolsInRequests(config, subscribe, batches[..n]);
      var r := Requests(config, subscribe, batches[..n]);
      assert Requests(config, subscribe, batches) == r + [RequestFor(config, subscribe, batches[n])];
      assert batches == batches[..n] + [batches[n]];
      assert SymbolsIn(r + [RequestFor(config, subscribe, batches[n])]) == SymbolsIn(r) + [batches[n]];
    }
  }

  /**
   What is sent for a list of symbols: requests of the one kind only, whose symbols put together are the list,
   each request non-empty and within the limit, all but the last full.
   */
  lemma {:induction false} RequestsPartition(config: Settings, subscribe: bool, symbols: seq<string>)
    requires symbols != []
    ensures var r := RequestsFor(config, subscribe, symbols);
            && (forall o :: o in r ==> o.Request? && if subscribe then IsSubscribe(config, o) else IsUnsubscribe(o))
            && Flatten(SymbolsIn(r)) == symbols
            && WellSized(SymbolsIn(r), if config.requestMaxSize != 0 then config.requestMaxSize else |symbols|)
  {
    var max := MaxSize(config.requestMaxSize, symbols);
    BatchesPartition(symbols, max);
    SymbolsInRequests(config, subscribe, Batches(symbols, max));
    RequestsAreOfTheirKind(config, subscribe, Batches(symbols, max));
  }

  lemma OneSymbol(config: Settings, symbol: string)
    ensures RequestsFor(config, false, [symbol]) + RequestsFor(config, true, [symbol]) == Resubscription(config, symbol)
  {
    assert Batches([symbol], MaxSize(config.requestMaxSize, [symbol])) == [[symbol]];
    assert [] + [[symbol]] == [[symbol]];
    RequestsGrow(config, false, [], [symbol]);
    RequestsGrow(config, true, [], [symbol]);
  }
}
