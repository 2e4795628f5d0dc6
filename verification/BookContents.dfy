/**
 What the published updates of market data hold, entry by entry
 (src/roq/deribit/gateway/market_data.cpp:524-645, 656-749).
 */
module BookContents {
  import opened Words
  import opened MarketData
  import opened LatchRuns
  import Batching

  function PositionsOf(entries: seq<Entry>, types: set<EntryType>): set<nat> {
    set i: nat | i < |entries| && entries[i].entryType in types
  }

  /** `chosen` is exactly the entries of this type, in order. */
  ghost predicate IsSelection(chosen: seq<Entry>, entries: seq<Entry>, t: EntryType) {
    exists at: seq<nat> :: Enumerates(at, PositionsOf(entries, {t})) && ChosenAt(chosen, entries, at)
  }

  predicate ChosenAt(chosen: seq<Entry>, entries: seq<Entry>, at: seq<nat>) {
    |at| == |chosen| && forall k: nat :: k < |at| ==> at[k] < |entries| && chosen[k] == entries[at[k]]
  }

  /** An index value and a settlement price for each entry that is one, in order, with its price. */
  ghost predicate AreStatistics(statistics: seq<Statistic>, entries: seq<Entry>) {
    exists at: seq<nat> :: Enumerates(at, PositionsOf(entries, {IndexValue, SettlementPrice})) && StatisticsAt(statistics, entries, at)
  }

  predicate StatisticsAt(statistics: seq<Statistic>, entries: seq<Entry>, at: seq<nat>) {
    && |at| == |statistics|
    && forall k: nat :: k < |at| ==>
         && at[k] < |entries|
         && statistics[k].value == entries[at[k]].price
         && (statistics[k].kind == Index <==> entries[at[k]].entryType == IndexValue)
         && (statistics[k].kind == Settlement <==> entries[at[k]].entryType == SettlementPrice)
  }

  /** No entry is later, and some entry is as late. */
  predicate IsLatest(time: nat, entries: seq<Entry>) {
    && (forall i: nat :: i < |entries| ==> entries[i].date <= time)
    && (if entries == [] then time == 0 else exists i: nat :: i < |entries| && entries[i].date == time)
  }

  /** The update `o` says of the message `e` what it holds. */
  ghost predicate Tells(o: Output, e: Event) {
    match o
    case Book(symbol, bids, asks, snapshot, time, _) =>
      && (if snapshot then e.Snapshot? else e.Incremental?) && symbol == e.symbol
      && IsSelection(bids, e.entries, Bid) && IsSelection(asks, e.entries, Offer)
      && !(bids == [] && asks == [])
      && IsLatest(time, e.entries)
    case Trades(symbol, trades, time, _) =>
      && e.Incremental? && symbol == e.symbol
      && IsSelection(trades, e.entries, Trade) && trades != []
      && IsLatest(time, e.entries)
    case Stats(symbol, statistics, snapshot, time, _) =>
      && (if snapshot then e.Snapshot? else e.Incremental?) && symbol == e.symbol
      && IsLatest(time, e.entries)
      && (if snapshot then AreStatistics(statistics, e.entries) && statistics != []
          else |statistics| >= 2
               && statistics[0] == Statistic(OpenInterest, e.openInterest) && statistics[1] == Statistic(MarkPrice, e.markPrice)
               && AreStatistics(statistics[2..], e.entries))
    case BadSnapshot(symbol) => e.Snapshot? && e.bad && symbol == e.symbol
    case Request(_, _, _, _) => e.Subscribe? || (e.Incremental? && e.bad)
  }

  // The selections

  lemma PositionsMore(entries: seq<Entry>, last: Entry, types: set<EntryType>)
    ensures PositionsOf(entries + [last], types)
         == PositionsOf(entries, types) + if last.entryType in types then {|entries|} else {}
  {
    assert forall i: nat :: i < |entries| ==> (entries + [last])[i] == entries[i];
  }

  lemma ChosenMore(chosen: seq<Entry>, entries: seq<Entry>, at: seq<nat>, last: Entry)
    requires ChosenAt(chosen, entries, at)
    ensures ChosenAt(chosen, entries + [last], at) && ChosenAt(chosen + [last], entries + [last], at + [|entries|])
  {
    assert forall i: nat :: i < |entries| ==> (entries + [last])[i] == entries[i];
  }

  /** Selecting keeps exactly the entries of the type, in order. */
  lemma {:induction false} SelectIsSelection(entries: seq<Entry>, t: EntryType)
    ensures IsSelection(Select(entries, t), entries, t)
  {
    hide Enumerates, ChosenAt;
    if entries == [] {
      NothingChosen({t});
    } else {
      var n := |entries| - 1;
      var front, last := entries[..n], entries[n];
      assert entries == front + [last];
      SelectIsSelection(front, t);
      var at: seq<nat> :| Enumerates(at, PositionsOf(front, {t})) && ChosenAt(Select(front, t), front, at);
      PositionsMore(front, last, {t});
      ChosenMore(Select(front, t), front, at, last);
      if last.entryType == t {
        EnumeratesMore(at, PositionsOf(front, {t}), n);
      } else {
        assert Select(front, t) + [] == Select(front, t) && PositionsOf(front, {t}) + {} == PositionsOf(front, {t});
      }
    }
  }

  lemma NothingChosen(types: set<EntryType>)
    ensures Enumerates([], PositionsOf([], types)) && ChosenAt([], [], []) && StatisticsAt([], [], [])
  {
  }

  lemma StatisticsMore(statistics: seq<Statistic>, entries: seq<Entry>, at: seq<nat>, last: Entry)
    requires StatisticsAt(statistics, entries, at)
    ensures StatisticsAt(statistics, entries + [last], at)
    ensures last.entryType in {IndexValue, SettlementPrice} ==>
              StatisticsAt(statistics + StatisticOf(last), entries + [last], at + [|entries|])
  {
    assert forall i: nat :: i < |entries| ==> (entries + [last])[i] == entries[i];
  }

  lemma {:induction false} StatisticsAreStatistics(entries: seq<Entry>)
    ensures AreStatistics(StatisticsIn(entries), entries)
  {
    hide Enumerates, StatisticsAt;
    var types := {IndexValue, SettlementPrice};
    if entries == [] {
      NothingChosen(types);
    } else {
      var n := |entries| - 1;
      var front, last := entries[..n], entries[n];
      assert entries == front + [last];
      StatisticsAreStatistics(front);
      var at: seq<nat> :| Enumerates(at, PositionsOf(front, types)) && StatisticsAt(StatisticsIn(front), front, at);
      PositionsMore(front, last, types);
      StatisticsMore(StatisticsIn(front), front, at, last);
      if last.entryType in types {
        EnumeratesMore(at, PositionsOf(front, types), n);
      } else {
        assert StatisticsIn(front) + [] == StatisticsIn(front) && PositionsOf(front, types) + {} == PositionsOf(front, types);
      }
    }
  }

  lemma {:induction false} LatestIsLatest(entries: seq<Entry>)
    ensures IsLatest(LatestDate(entries), entries)
  {
    if entries != [] {
      var n := |entries| - 1;
      LatestIsLatest(entries[..n]);
      assert forall i: nat :: i < n ==> entries[..n][i] == entries[i];
      if n > 0 && LatestDate(entries[..n]) >= entries[n].date {
        var i: nat :| i < n && entries[..n][i].date == LatestDate(entries[..n]);
        assert entries[i].date == LatestDate(entries);
      } else {
        assert entries[n].date == LatestDate(entries);
      }
    }
  }

  // Updates

  lemma BookTells(config: Settings, e: Event, o: Output)
    requires (e.Incremental? || e.Snapshot?) && o in BookOf(config, e)
    ensures Tells(o, e)
  {
    hide IsSelection, AreStatistics, IsLatest, Select, StatisticsIn, LatestDate;
    SelectIsSelection(e.entries, Bid);
    SelectIsSelection(e.entries, Offer);
    LatestIsLatest(e.entries);
  }

  lemma TradesTell(config: Settings, e: Event, o: Output)
    requires e.Incremental? && o in TradesOf(config, e)
    ensures Tells(o, e)
  {
    hide IsSelection, AreStatistics, IsLatest, Select, StatisticsIn, LatestDate;
    SelectIsSelection(e.entries, Trade);
    LatestIsLatest(e.entries);
  }

  lemma StatsTell(e: Event, o: Output)
    requires (e.Incremental? || e.Snapshot?) && o in StatsOf(e)
    ensures Tells(o, e)
  {
    hide IsSelection, AreStatistics, IsLatest, Select, StatisticsIn, LatestDate;
    StatisticsAreStatistics(e.entries);
    LatestIsLatest(e.entries);
    if e.Incremental? {
      assert o.statistics[2..] == StatisticsIn(e.entries);
    } else {
      assert [] + StatisticsIn(e.entries) == StatisticsIn(e.entries);
    }
  }

  lemma {:induction false} StepTells(config: Settings, latch: set<string>, e: Event, o: Output)
    requires o in Step(config, latch, e).outputs
    ensures Tells(o, e)
  {
    hide Tells, BookOf, TradesOf, StatsOf, RequestsFor, Resubscription;
    match e
    case Incremental(_, _, _, _, _) =>
      if o in BookOf(config, e) {
        BookTells(config, e, o);
      } else if o in TradesOf(config, e) {
        TradesTell(config, e, o);
      } else if o in StatsOf(e) {
        StatsTell(e, o);
      } else {
        ResubscriptionTells(config, e, o);
      }
    case Snapshot(_, _, _) =>
      if o in BookOf(config, e) {
        BookTells(config, e, o);
      } else if o in StatsOf(e) {
        StatsTell(e, o);
      } else {
        BadSnapshotTells(e);
      }
    case Disconnected =>
    case Subscribe(symbols) => OnlyRequests(config, e, o);
  }

  lemma ResubscriptionTells(config: Settings, e: Event, o: Output)
    requires e.Incremental? && e.bad && o in Resubscription(config, e.symbol)
    ensures Tells(o, e)
  {
  }

  lemma BadSnapshotTells(e: Event)
    requires e.Snapshot? && e.bad
    ensures Tells(BadSnapshot(e.symbol), e)
  {
  }

  lemma OnlyRequests(config: Settings, e: Event, o: Output)
    requires e.Subscribe? && o in RequestsFor(config, true, e.symbols)
    ensures Tells(o, e)
  {
    RequestsAreOfTheirKind(config, true, Batching.Batches(e.symbols, Batching.MaxSize(config.requestMaxSize, e.symbols)));
  }

  lemma SomethingSelected(chosen: seq<Entry>, entries: seq<Entry>, t: EntryType)
    requires IsSelection(chosen, entries, t)
    ensures chosen != [] <==> exists i: nat :: i < |entries| && entries[i].entryType == t
  {
    var at: seq<nat> :| Enumerates(at, PositionsOf(entries, {t})) && ChosenAt(chosen, entries, at);
    if chosen != [] {
      assert at[0] in at;
    }
    if i: nat :| i < |entries| && entries[i].entryType == t {
      assert i in PositionsOf(entries, {t});
    }
  }

  /** A message's book is put out, unless held back, iff books are published and it has a bid or an offer. */
  lemma {:induction false} BookIffEntries(config: Settings, e: Event)
    requires e.Incremental? || e.Snapshot?
    ensures BookOf(config, e) != []
            <==> config.publishBooks && exists i: nat :: i < |e.entries| && (e.entries[i].entryType == Bid || e.entries[i].entryType == Offer)
  {
    hide Select, IsSelection;
    SelectIsSelection(e.entries, Bid);
    SelectIsSelection(e.entries, Offer);
    SomethingSelected(Select(e.entries, Bid), e.entries, Bid);
    SomethingSelected(Select(e.entries, Offer), e.entries, Offer);
  }

  /** Its trades are put out iff trades are published and it has one. */
  lemma {:induction false} TradesIffEntries(config: Settings, e: Event)
    requires e.Incremental?
    ensures TradesOf(config, e) != [] <==> config.publishTrades && exists i: nat :: i < |e.entries| && e.entries[i].entryType == Trade
  {
    hide Select, IsSelection;
    SelectIsSelection(e.entries, Trade);
    SomethingSelected(Select(e.entries, Trade), e.entries, Trade);
  }

  /** Over every run, whatever is published says what one of the messages holds. */
  lemma {:induction false} UpdatesTell(config: Settings, h: seq<Event>, o: Output)
    requires o in Run(config, h).outputs
    ensures exists i: nat :: i < |h| && Tells(o, h[i])
  {
    hide Step, Tells;
    var n := |h| - 1;
    if o in Run(config, h[..n]).outputs {
      UpdatesTell(config, h[..n], o);
      var i: nat :| i < n && Tells(o, h[..n][i]);
      assert Tells(o, h[i]);
    } else {
      StepTells(config, Run(config, h[..n]).latch, h[n], o);
    }
  }

  /** A refused snapshot is the end of what its message puts out, behind its book. */
  lemma {:induction false} BadSnapshotIsLast(config: Settings, latch: set<string>, e: Event, symbol: string)
    requires e.Snapshot?
    ensures BadSnapshot(symbol) in Step(config, latch, e).outputs
            <==> symbol == e.symbol && e.bad && BookOf(config, e) != []
    ensures BadSnapshot(symbol) in Step(config, latch, e).outputs ==>
              var outputs := Step(config, latch, e).outputs;
              |outputs| == 2 && outputs[0].Book? && outputs[1] == BadSnapshot(symbol)
  {
    hide Select, StatisticsIn, LatestDate;
  }
}
