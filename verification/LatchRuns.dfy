/**
 The latch over whole runs of the market data session
 (src/roq/deribit/gateway/market_data.cpp:595-617, 656-665, 890-902).
 */
module LatchRuns {
  import opened MarketData

  /** The latch and everything put out, after a history of events. */
  function Run(config: Settings, h: seq<Event>): Result {
    if h == [] then Result({}, []) else
      var before := Run(config, h[..|h| - 1]);
      var step := Step(config, before.latch, h[|h| - 1]);
      Result(step.latch, before.outputs + step.outputs)
  }

  /** An incremental book of `s` that the dispatcher refuses when it is offered one. */
  predicate Refused(config: Settings, e: Event, s: string) {
    e.Incremental? && e.symbol == s && e.bad && BookOf(config, e) != []
  }

  predicate Refreshes(e: Event, s: string) {
    e.Snapshot? && e.symbol == s
  }

  /** A refused book of `s` has not been followed by a snapshot message of `s`. */
  predicate Held(config: Settings, h: seq<Event>, s: string) {
    exists j: nat :: j < |h| && Refused(config, h[j], s) && NoRefreshAfter(h, j, s)
  }

  predicate NoRefreshAfter(h: seq<Event>, j: nat, s: string) {
    forall k: nat :: j < k < |h| ==> !Refreshes(h[k], s)
  }

  lemma HeldStep(config: Settings, h: seq<Event>, s: string)
    requires h != []
    ensures var e := h[|h| - 1];
            Held(config, h, s) <==> Refused(config, e, s) || (Held(config, h[..|h| - 1], s) && !Refreshes(e, s))
  {
    hide Refused;
    var n := |h| - 1;
    var e := h[n];
    if Held(config, h, s) {
      var j: nat :| j < |h| && Refused(config, h[j], s) && NoRefreshAfter(h, j, s);
      if j < n {
        assert h[..n][j] == h[j] && NoRefreshAfter(h[..n], j, s);
      }
    }
    if Refused(config, e, s) {
      assert NoRefreshAfter(h, n, s);
    }
    if Held(config, h[..n], s) && !Refreshes(e, s) {
      var j: nat :| j < n && Refused(config, h[..n][j], s) && NoRefreshAfter(h[..n], j, s);
      assert forall k: nat :: j < k < n ==> h[k] == h[..n][k];
      assert NoRefreshAfter(h, j, s);
    }
  }

  /** One step, as seen by one symbol. */
  lemma StepLatches(config: Settings, latch: set<string>, e: Event, s: string)
    ensures s in Step(config, latch, e).latch
            <==> (s !in latch && Refused(config, e, s)) || (s in latch && !Refreshes(e, s))
  {
    hide Select, StatisticsIn, LatestDate, StatsOf, TradesOf, Resubscription, RequestsFor;
  }

  lemma {:induction false} LatchedIffHeld(config: Settings, h: seq<Event>, s: string)
    ensures s in Run(config, h).latch <==> Held(config, h, s)
  {
    hide Step, Refused, Held;
    if h == [] {
      NothingHeld(config, s);
    } else {
      var n := |h| - 1;
      LatchedIffHeld(config, h[..n], s);
      HeldStep(config, h, s);
      StepLatches(config, Run(config, h[..n]).latch, h[n], s);
      Exclusive(config, h[n], s);
    }
  }

  lemma NothingHeld(config: Settings, s: string)
    ensures !Held(config, [], s)
  {
  }

  lemma Exclusive(config: Settings, e: Event, s: string)
    ensures !(Refused(config, e, s) && Refreshes(e, s))
  {
  }

  // What the dispatcher was given

  function Books(outputs: seq<Output>): seq<Output> {
    if outputs == [] then [] else
      var n := |outputs| - 1;
      Books(outputs[..n]) + (if outputs[n].Book? && !outputs[n].snapshot then [outputs[n]] else [])
  }

  function RequestsIn(outputs: seq<Output>): seq<Output> {
    if outputs == [] then [] else
      var n := |outputs| - 1;
      RequestsIn(outputs[..n]) + (if outputs[n].Request? then [outputs[n]] else [])
  }

  lemma {:induction false} Appended(a: seq<Output>, b: seq<Output>)
    ensures Books(a + b) == Books(a) + Books(b)
    ensures RequestsIn(a + b) == RequestsIn(a) + RequestsIn(b)
  {
    if b == [] {
      assert a + b == a;
    } else {
      var n := |b| - 1;
      assert (a + b)[..|a| + n] == a + b[..n];
      Appended(a, b[..n]);
    }
  }

  /** The books of the history that no refusal holds back. */
  ghost function KeptBooks(config: Settings, h: seq<Event>): seq<Output> {
    if h == [] then [] else
      var n := |h| - 1;
      KeptBooks(config, h[..n])
      + (if h[n].Incremental? && !Held(config, h[..n], h[n].symbol) then BookOf(config, h[n]) else [])
  }

  /** The book at the end of the history is the first to be refused since its symbol's last snapshot. */
  ghost predicate StartsEpisode(config: Settings, h: seq<Event>) {
    h != [] && var e := h[|h| - 1];
    e.Incremental? && Refused(config, e, e.symbol) && !Held(config, h[..|h| - 1], e.symbol)
  }

  /** One unsubscribe and one subscribe an episode, besides the subscriptions asked for. */
  ghost function ExpectedRequests(config: Settings, h: seq<Event>): seq<Output> {
    if h == [] then [] else
      var n := |h| - 1;
      ExpectedRequests(config, h[..n])
      + (if StartsEpisode(config, h) then Resubscription(config, h[n].symbol)
         else if h[n].Subscribe? then RequestsFor(config, true, h[n].symbols)
         else [])
  }

  /** The incremental books dispatched are the history without the held ones; each episode resubscribes once. */
  lemma {:induction false} LatchRefinement(config: Settings, h: seq<Event>)
    ensures Books(Run(config, h).outputs) == KeptBooks(config, h)
    ensures RequestsIn(Run(config, h).outputs) == ExpectedRequests(config, h)
  {
    hide Step, Held, Refused, Books, RequestsIn, Resubscription, RequestsFor, BookOf;
    if h == [] {
      Empty();
    } else {
      var n := |h| - 1;
      var e, before := h[n], Run(config, h[..n]);
      LatchRefinement(config, h[..n]);
      Appended(before.outputs, Step(config, before.latch, e).outputs);
      StepBooks(config, before.latch, e);
      if e.Incremental? {
        LatchedIffHeld(config, h[..n], e.symbol);
      }
    }
  }

  lemma Empty()
    ensures Books([]) == [] && RequestsIn([]) == []
  {
  }

  /** The books and requests of one step. */
  lemma StepBooks(config: Settings, latch: set<string>, e: Event)
    ensures var outputs := Step(config, latch, e).outputs;
            && Books(outputs) == (if e.Incremental? && e.symbol !in latch then BookOf(config, e) else [])
            && RequestsIn(outputs)
               == (if e.Incremental? && Refused(config, e, e.symbol) && e.symbol !in latch then Resubscription(config, e.symbol)
                   else if e.Subscribe? then RequestsFor(config, true, e.symbols)
                   else [])
  {
    hide Books, RequestsIn, Resubscription, RequestsFor, BookOf, TradesOf, StatsOf;
    Empty();
    match e
    case Incremental(_, _, _, _, _) =>
      var book := if e.symbol in latch then [] else BookOf(config, e);
      var requests := if book != [] && e.bad then Resubscription(config, e.symbol) else [];
      var trades, stats := TradesOf(config, e), StatsOf(e);
      Pieces(config, e);
      Appended(book, requests);
      Appended(book + requests, trades);
      Appended(book + requests + trades, stats);
    case Snapshot(_, _, _) =>
      var book := BookOf(config, e);
      var rest := if book != [] && e.bad then [BadSnapshot(e.symbol)] else StatsOf(e);
      Pieces(config, e);
      NeitherBookNorRequest([BadSnapshot(e.symbol)]);
      Appended(book, rest);
    case Disconnected =>
    case Subscribe(symbols) =>
      AllRequests(config, true, Batching.Batches(symbols, Batching.MaxSize(config.requestMaxSize, symbols)));
      RequestsForIs(config, symbols);
  }

  lemma RequestsForIs(config: Settings, symbols: seq<string>)
    ensures RequestsFor(config, true, symbols)
         == Requests(config, true, Batching.Batches(symbols, Batching.MaxSize(config.requestMaxSize, symbols)))
  {
  }

  lemma NeitherBookNorRequest(outputs: seq<Output>)
    requires |outputs| <= 1 && forall o :: o in outputs ==> !o.Request? && !(o.Book? && !o.snapshot)
    ensures Books(outputs) == [] && RequestsIn(outputs) == []
  {
  }

  lemma {:induction false} AllRequests(config: Settings, subscribe: bool, batches: seq<seq<string>>)
    ensures var r := Requests(config, subscribe, batches); RequestsIn(r) == r && Books(r) == []
  {
    if batches != [] {
      var n := |batches| - 1;
      var r := Requests(config, subscribe, batches);
      AllRequests(config, subscribe, batches[..n]);
      assert r[..|r| - 1] == Requests(config, subscribe, batches[..n]);
    }
  }

  lemma Pieces(config: Settings, e: Event)
    requires e.Incremental? || e.Snapshot?
    ensures RequestsIn(BookOf(config, e)) == [] && Books(BookOf(config, e)) == if e.Incremental? then BookOf(config, e) else []
    ensures Books(StatsOf(e)) == RequestsIn(StatsOf(e)) == []
    ensures e.Incremental? ==> Books(TradesOf(config, e)) == RequestsIn(TradesOf(config, e)) == []
    ensures e.Incremental? ==> Books(Resubscription(config, e.symbol)) == []
    ensures e.Incremental? ==> RequestsIn(Resubscription(config, e.symbol)) == Resubscription(config, e.symbol)
  {
    hide Select, StatisticsIn, LatestDate, HasBook, Books, RequestsIn, Resubscription;
    NeitherBookNorRequest(StatsOf(e));
    if e.Incremental? {
      NeitherBookNorRequest(TradesOf(config, e));
      ResubscriptionIsRequests(config, e.symbol);
      if BookOf(config, e) == [] {
        Empty();
      } else {
        OneBook(BookOf(config, e)[0]);
      }
    } else {
      NeitherBookNorRequest(BookOf(config, e));
    }
  }

  lemma OneBook(o: Output)
    requires o.Book? && !o.snapshot
    ensures Books([o]) == [o] && RequestsIn([o]) == []
  {
    assert [o][..0] == [];
  }

  lemma ResubscriptionIsRequests(config: Settings, symbol: string)
    ensures Books(Resubscription(config, symbol)) == []
    ensures RequestsIn(Resubscription(config, symbol)) == Resubscription(config, symbol)
  {
    var batches := [[symbol]];
    assert [] + batches == batches;
    RequestsGrow(config, false, [], [symbol]);
    RequestsGrow(config, true, [], [symbol]);
    AllRequests(config, false, batches);
    AllRequests(config, true, batches);
    Appended(Requests(config, false, batches), Requests(config, true, batches));
  }

  /** What the first refusal of a symbol sends: one unsubscribe and then one subscribe, for this symbol alone. */
  lemma {:induction false} EpisodeResubscribes(config: Settings, h: seq<Event>)
    requires StartsEpisode(config, h)
    ensures exists a: Output, b: Output ::
              && RequestsIn(Run(config, h).outputs) == RequestsIn(Run(config, h[..|h| - 1]).outputs) + [a, b]
              && IsUnsubscribe(a) && a.symbols == [h[|h| - 1].symbol]
              && IsSubscribe(config, b) && b.symbols == [h[|h| - 1].symbol]
  {
    hide Run, RequestsIn, Resubscription, Held, Refused;
    LatchRefinement(config, h);
    LatchRefinement(config, h[..|h| - 1]);
    ResubscriptionIs(config, h[|h| - 1].symbol);
    var r := Resubscription(config, h[|h| - 1].symbol);
    assert r == [r[0], r[1]];
  }

  /** Between two episodes of a symbol lies a snapshot message of it. */
  lemma {:induction false} EpisodesAreSeparated(config: Settings, h: seq<Event>, i: nat, j: nat)
    requires i < j < |h| && h[i].Incremental? && h[j].Incremental? && h[i].symbol == h[j].symbol
    requires StartsEpisode(config, h[..i + 1]) && StartsEpisode(config, h[..j + 1])
    ensures exists k: nat :: i < k < j && Refreshes(h[k], h[i].symbol)
  {
    var s := h[i].symbol;
    assert h[..j + 1][..j] == h[..j];
    assert Refused(config, h[..j][i], s);
    assert !NoRefreshAfter(h[..j], i, s);
  }

  // The flag that closes the updates of one message

  predicate IsUpdate(o: Output) {
    o.Book? || o.Trades? || o.Stats?
  }

  /** Among what one message puts out exactly the final update is marked as the last. */
  lemma {:induction false} OneLastPerMessage(config: Settings, latch: set<string>, e: Event, k: nat)
    requires (e.Incremental? || e.Snapshot?) && !(e.Snapshot? && e.bad)
    requires var outputs := Step(config, latch, e).outputs; k < |outputs|
    ensures var outputs := Step(config, latch, e).outputs;
            IsUpdate(outputs[k]) && outputs[k].last <==> k == |outputs| - 1
  {
    hide Select, LatestDate, StatisticsIn;
  }
}
