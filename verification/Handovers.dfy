/**
 From the exact calls of a receiver to what they mean: which published book each call names,
 when it is the whole of that book, in which order books are named, and that a stretch of
 frames received without interruption hands over every book of an instrument once.
 */
module Handovers {
  import opened Words
  import opened Channels
  import opened Books
  import opened SharedState
  import opened Network
  import opened Receivers

  /** A call was made by message `j` of arrival `k`, which finished a book. */
  predicate MadeAt(n: Net, kind: Kind, k: nat, j: nat, c: SequencerCall)
    requires Arrivals(n)
  {
    && k < |n.run| && Accepted(n, k) && j < Size(n, k)
    && Ends(n.packets, Index(n, k), j)
    && CallAt(n, kind, k, j) == [c]
  }

  /** The book it finished. */
  function BookAt(n: Net, k: nat, j: nat): Book
    requires Arrivals(n) && k < |n.run| && Ends(n.packets, Index(n, k), j)
  {
    BookEndingAt(n.packets, Index(n, k), j)
  }

  /** The multiplier that its levels are scaled by. */
  function MultiplierAt(n: Net, k: nat, j: nat): real
    requires Arrivals(n) && k < |n.run| && j < Size(n, k) && MessageAt(n, k, j).Levels? && ServedAt(n, k, j)
  {
    TableAt(n, k, j)[MessageAt(n, k, j).fragment.instrumentId].multiplier
  }

  /** The call for all levels of a book, or none if a snapshot has no levels. */
  function WholeCall(kind: Kind, table: Table, book: Book): seq<SequencerCall>
    requires book != []
  {
    CallFor(kind, table, book[|book| - 1], LevelsOf(book))
  }

  // Moments of calls

  datatype Moment = Moment(arrival: nat, message: nat)

  /** The moments of all calls before message `j` of arrival `k`. */
  function MomentsBefore(n: Net, kind: Kind, k: nat, j: nat): seq<Moment>
    requires Arrivals(n) && IsMoment(n, k, j)
    decreases k, j
  {
    if j > 0 then
      MomentsBefore(n, kind, k, j - 1) + (if CallAt(n, kind, k, j - 1) != [] then [Moment(k, j - 1)] else [])
    else if k > 0 then MomentsBefore(n, kind, k - 1, if Accepted(n, k - 1) then Size(n, k - 1) else 0)
    else []
  }

  lemma OneCallAtMost(n: Net, kind: Kind, k: nat, j: nat)
    requires Arrivals(n) && k < |n.run| && j < Size(n, k)
    ensures |CallAt(n, kind, k, j)| <= 1
    ensures CallAt(n, kind, k, j) != [] ==> Ends(n.packets, Index(n, k), j)
  {
  }

  /** Every call has its moment, and they ascend. */
  lemma {:induction false} MomentsOfCalls(n: Net, kind: Kind, k: nat, j: nat)
    requires Arrivals(n) && IsMoment(n, k, j) && (j > 0 ==> Accepted(n, k))
    ensures var calls, moments := CallsBefore(n, kind, k, j), MomentsBefore(n, kind, k, j);
            && |moments| == |calls|
            && (forall x: nat :: x < |calls| ==> MadeAt(n, kind, moments[x].arrival, moments[x].message, calls[x]) && Precedes(moments[x].arrival, moments[x].message, k, j))
            && (forall x: nat, y: nat :: x < y < |calls| ==>
                  Precedes(moments[x].arrival, moments[x].message, moments[y].arrival, moments[y].message))
    decreases k, j
  {
    hide CallAt, Accepted;
    if j > 0 {
      MomentsOfCalls(n, kind, k, j - 1);
      OneCallAtMost(n, kind, k, j - 1);
    } else if k > 0 {
      MomentsOfCalls(n, kind, k - 1, if Accepted(n, k - 1) then Size(n, k - 1) else 0);
    }
  }

  /** The moments of all calls of the run. */
  function Moments(n: Net, kind: Kind): seq<Moment>
    requires Arrivals(n)
  {
    if n.run == [] then [] else
      var k := |n.run| - 1;
      MomentsBefore(n, kind, k, if Accepted(n, k) then Size(n, k) else 0)
  }

  /** Every call of a run was made by a message that finished a book, each by its own. */
  lemma {:induction false} CallsComeFromBooks(n: Net, kind: Kind)
    requires Fair(n)
    ensures var calls, moments := Final(n, kind).calls, Moments(n, kind);
            && |moments| == |calls|
            && (forall x: nat :: x < |calls| ==> MadeAt(n, kind, moments[x].arrival, moments[x].message, calls[x]))
            && (forall x: nat, y: nat :: x < y < |calls| ==>
                  Precedes(moments[x].arrival, moments[x].message, moments[y].arrival, moments[y].message))
  {
    hide CallsBefore, MomentsBefore, MadeAt, Accepted;
    CallsAreExactlyThese(n, kind);
    if |n.run| > 0 {
      var k := |n.run| - 1;
      MomentsOfCalls(n, kind, k, if Accepted(n, k) then Size(n, k) else 0);
    }
  }

  // Whole or not

  /** Every fragment with levels is in hand. */
  predicate AllInHand(n: Net, kind: Kind, k: nat, book: Book, places: seq<Place>)
    requires Arrivals(n) && k < |n.run| && |places| == |book|
  {
    forall x: nat :: x < |book| ==> book[x].levels == [] || InHand(n, kind, k, places[x])
  }

  predicate ArePlaces(n: Net, book: Book, places: seq<Place>) {
    |places| == |book| && forall x: nat :: x < |book| ==> IsPlaceOf(n.packets, places[x], book[x])
  }

  lemma {:induction false} HeldLevels(n: Net, kind: Kind, k: nat, book: Book, places: seq<Place>)
    requires Arrivals(n) && k < |n.run| && ArePlaces(n, book, places)
    ensures |HeldOf(n, kind, k, places)| <= |LevelsOf(book)|
    ensures |HeldOf(n, kind, k, places)| == |LevelsOf(book)| <==> AllInHand(n, kind, k, book, places)
    ensures AllInHand(n, kind, k, book, places) ==> HeldOf(n, kind, k, places) == LevelsOf(book)
    decreases |book|
  {
    hide InHand;
    if book != [] {
      var m := |book| - 1;
      HeldLevels(n, kind, k, book[..m], places[..m]);
      assert FragmentAt(n, places[m]) == book[m] && IsPlaceOf(n.packets, places[m], book[m]);
      assert AllInHand(n, kind, k, book, places)
          <==> AllInHand(n, kind, k, book[..m], places[..m]) && (book[m].levels == [] || InHand(n, kind, k, places[m]));
    }
  }

  /** Some fragment with levels is in hand. */
  predicate SomeInHand(n: Net, kind: Kind, k: nat, book: Book, places: seq<Place>)
    requires Arrivals(n) && k < |n.run| && |places| == |book|
  {
    exists x: nat :: x < |book| && book[x].levels != [] && InHand(n, kind, k, places[x])
  }

  lemma {:induction false} SomethingHeld(n: Net, kind: Kind, k: nat, book: Book, places: seq<Place>)
    requires Arrivals(n) && k < |n.run| && ArePlaces(n, book, places)
    ensures HeldOf(n, kind, k, places) != [] <==> SomeInHand(n, kind, k, book, places)
    decreases |book|
  {
    hide InHand;
    if book != [] {
      var m := |book| - 1;
      SomethingHeld(n, kind, k, book[..m], places[..m]);
      assert FragmentAt(n, places[m]) == book[m] && IsPlaceOf(n.packets, places[m], book[m]);
      SomeInHandSplits(n, kind, k, book, places);
    }
  }

  lemma SomeInHandSplits(n: Net, kind: Kind, k: nat, book: Book, places: seq<Place>)
    requires Arrivals(n) && k < |n.run| && |places| == |book| > 0
    ensures var m := |book| - 1;
            SomeInHand(n, kind, k, book, places)
            <==> SomeInHand(n, kind, k, book[..m], places[..m]) || (book[m].levels != [] && InHand(n, kind, k, places[m]))
  {
    hide InHand;
    var m := |book| - 1;
    var front, before := book[..m], places[..m];
    if x: nat :| x < m && front[x].levels != [] && InHand(n, kind, k, before[x]) {
      assert book[x].levels != [] && InHand(n, kind, k, places[x]);
    }
    if x: nat :| x < |book| && book[x].levels != [] && InHand(n, kind, k, places[x]) {
      if x < m {
        assert front[x].levels != [] && InHand(n, kind, k, before[x]);
      }
    }
  }

  lemma PlacesOfBook(n: Net, k: nat, j: nat)
    requires Arrivals(n) && k < |n.run| && j < Size(n, k) && Ends(n.packets, Index(n, k), j)
    ensures ArePlaces(n, BookAt(n, k, j), PlacesOf(n.packets, Index(n, k), j))
  {
    PlacesArePlaces(n.packets, Index(n, k), j);
  }

  /** The levels of different amounts make different calls. */
  lemma CallTellsLevels(kind: Kind, table: Table, f: Fragment, held: seq<Level>, levels: seq<Level>)
    requires Served(table, f.instrumentId) && CallFor(kind, table, f, held) == CallFor(kind, table, f, levels)
    ensures |held| == |levels|
  {
    ScaledCount(held, table[f.instrumentId].multiplier);
    ScaledCount(levels, table[f.instrumentId].multiplier);
  }

  /** What a message that finishes a book hands over is the whole book iff every fragment with levels is in hand. */
  lemma {:induction false} WholeIffAllInHand(n: Net, kind: Kind, k: nat, j: nat)
    requires Arrivals(n) && k < |n.run| && j < Size(n, k) && Ends(n.packets, Index(n, k), j) && ServedAt(n, k, j)
    ensures |PlacesOf(n.packets, Index(n, k), j)| == |BookAt(n, k, j)|
    ensures CallAt(n, kind, k, j) == WholeCall(kind, TableAt(n, k, j), BookAt(n, k, j))
            <==> AllInHand(n, kind, k, BookAt(n, k, j), PlacesOf(n.packets, Index(n, k), j))
  {
    hide CallFor, HeldOf, LevelsOf, AllInHand, TableAt;
    PlacesOfBook(n, k, j);
    HeldLevels(n, kind, k, BookAt(n, k, j), PlacesOf(n.packets, Index(n, k), j));
    if CallAt(n, kind, k, j) == WholeCall(kind, TableAt(n, k, j), BookAt(n, k, j)) {
      CallTellsLevels(kind, TableAt(n, k, j), MessageAt(n, k, j).fragment,
                      HeldOf(n, kind, k, PlacesOf(n.packets, Index(n, k), j)), LevelsOf(BookAt(n, k, j)));
    }
  }

  /** What a call holds, field by field. */
  ghost predicate HoldsLevels(c: SequencerCall, f: Fragment, levels: seq<Level>, multiplier: real) {
    && c.instrumentId == f.instrumentId && c.changeId == f.changeId
    && (c.UpdateCall? ==> c.prevChangeId == f.prevChangeId)
    && IsSide(c.bids, levels, Buy, multiplier)
    && IsSide(c.asks, levels, Sell, multiplier)
  }

  /** Every call names the book's instrument and change, and holds the levels in hand with their amounts times the multiplier. */
  lemma {:induction false} CallHoldsLevels(n: Net, kind: Kind, k: nat, j: nat, c: SequencerCall)
    requires Arrivals(n) && MadeAt(n, kind, k, j, c)
    ensures ServedAt(n, k, j) && (c.SnapshotCall? <==> kind.Snapshots?)
    ensures var f := MessageAt(n, k, j).fragment;
            HoldsLevels(c, f, HeldOf(n, kind, k, PlacesOf(n.packets, Index(n, k), j)), TableAt(n, k, j)[f.instrumentId].multiplier)
  {
    hide Scaled, IsSide, HeldOf, TableAt;
    var held := HeldOf(n, kind, k, PlacesOf(n.packets, Index(n, k), j));
    ScaledIsSide(held, Buy, TableAt(n, k, j)[MessageAt(n, k, j).fragment.instrumentId].multiplier);
    ScaledIsSide(held, Sell, TableAt(n, k, j)[MessageAt(n, k, j).fragment.instrumentId].multiplier);
  }

  /** No call is ever made for an instrument that is unknown or to be discarded. */
  lemma {:induction false} NoCallsForDiscarded(n: Net, kind: Kind, c: SequencerCall)
    requires Fair(n) && c in Final(n, kind).calls
    ensures var table := Final(n, kind).table; c.instrumentId in table && table[c.instrumentId].discard == false
  {
    hide MadeAt, Final, Moments, Legal, NoUnnoticedGap;
    CallsComeFromBooks(n, kind);
    var x: nat :| x < |Final(n, kind).calls| && Final(n, kind).calls[x] == c;
    var m := Moments(n, kind)[x];
    DiscardedIsNotServed(n, kind, m.arrival, m.message, c);
  }

  lemma DiscardedIsNotServed(n: Net, kind: Kind, k: nat, j: nat, c: SequencerCall)
    requires Fair(n) && MadeAt(n, kind, k, j, c)
    ensures var table := Final(n, kind).table; c.instrumentId in table && table[c.instrumentId].discard == false
  {
    hide Accepted, Legal, NoUnnoticedGap, HeldOf, Scaled, IsSide;
    CallHoldsLevels(n, kind, k, j, c);
    FinalTableExtends(n, kind, k, j);
  }

  lemma FinalTableExtends(n: Net, kind: Kind, k: nat, j: nat)
    requires Fair(n) && k < |n.run| && Accepted(n, k) && j < Size(n, k)
    ensures Extends(TableAt(n, k, j), Final(n, kind).table)
  {
    hide Accepted, Legal, NoUnnoticedGap, Learn, InStep;
    RunKeepsInvariant(n, kind, |n.run|);
    var l := |n.run| - 1;
    LearnExtends(TableBefore(n, k, j), MessageAt(n, k, j), n.run[k].around[j]);
    TablesExtend(n, l, if Accepted(n, l) then Size(n, l) else 0, k, j + 1);
    ExtendsOn(TableAt(n, k, j), TableBefore(n, k, j + 1), Final(n, kind).table);
  }

  lemma ExtendsOn(a: Table, b: Table, c: Table)
    requires Extends(a, b) && Extends(b, c)
    ensures Extends(a, c)
  {
  }

  // Order

  /** Arrivals never go back in the stream; packets may be lost or repeated. */
  predicate NeverGoesBack(n: Net) {
    forall s: nat, t: nat :: s < t < |n.run| ==> Index(n, s) <= Index(n, t)
  }

  /** The position, among all published books, of the book that a moment finished. */
  function Ordinal(n: Net, m: Moment): nat
    requires Arrivals(n) && m.arrival < |n.run| && m.message < Size(n, m.arrival)
  {
    |Published(n.packets, Index(n, m.arrival), m.message)|
  }

  lemma OrdinalNames(n: Net, m: Moment)
    requires Arrivals(n) && m.arrival < |n.run| && Ends(n.packets, Index(n, m.arrival), m.message)
    ensures Ordinal(n, m) < |AllPublished(n.packets)|
    ensures AllPublished(n.packets)[Ordinal(n, m)] == BookAt(n, m.arrival, m.message)
  {
    BookIsPublished(n.packets, Index(n, m.arrival), m.message);
  }

  /** A book that ends later in the stream has a larger ordinal. */
  lemma LaterOrdinal(n: Net, a: Moment, b: Moment)
    requires Arrivals(n) && a.arrival < |n.run| && b.arrival < |n.run|
    requires Ends(n.packets, Index(n, a.arrival), a.message) && b.message < Size(n, b.arrival)
    requires Precedes(Index(n, a.arrival), a.message, Index(n, b.arrival), b.message)
    ensures Ordinal(n, a) < Ordinal(n, b)
  {
    PublishedGrows(n.packets, Index(n, a.arrival), a.message + 1, Index(n, b.arrival), b.message);
  }

  /** A repeated packet is refused, so without going back accepted arrivals move on in the stream. */
  lemma AcceptedMovesOn(n: Net, s: nat, t: nat)
    requires Fair(n) && NeverGoesBack(n) && s < t && Accepted(n, s) && Accepted(n, t)
    ensures Index(n, s) < Index(n, t)
  {
    AcceptedIsNext(n, s, t);
  }

  /** Without going back, later calls name later books: none twice, and all in the order of the stream. */
  lemma {:induction false} BooksComeInOrder(n: Net, kind: Kind, x: nat, y: nat)
    requires Fair(n) && NeverGoesBack(n) && x < y < |Final(n, kind).calls|
    ensures var calls, moments := Final(n, kind).calls, Moments(n, kind);
            && |moments| == |calls|
            && MadeAt(n, kind, moments[x].arrival, moments[x].message, calls[x]) && MadeAt(n, kind, moments[y].arrival, moments[y].message, calls[y])
            && Ordinal(n, moments[x]) < Ordinal(n, moments[y]) < |AllPublished(n.packets)|
            && AllPublished(n.packets)[Ordinal(n, moments[x])] == BookAt(n, moments[x].arrival, moments[x].message)
            && AllPublished(n.packets)[Ordinal(n, moments[y])] == BookAt(n, moments[y].arrival, moments[y].message)
  {
    hide CallAt, Accepted, Legal, NoUnnoticedGap, Moments, Final, NeverGoesBack;
    CallsComeFromBooks(n, kind);
    var a, b := Moments(n, kind)[x], Moments(n, kind)[y];
    if a.arrival < b.arrival {
      AcceptedMovesOn(n, a.arrival, b.arrival);
    }
    LaterOrdinal(n, a, b);
    OrdinalNames(n, a);
    OrdinalNames(n, b);
  }

  // Twice

  /** Two calls of the run name the same published book. */
  ghost predicate NamesTwice(n: Net, kind: Kind)
    requires Fair(n)
  {
    CallsComeFromBooks(n, kind);
    var moments := Moments(n, kind);
    exists x: nat, y: nat :: x < y < |moments| && Ordinal(n, moments[x]) == Ordinal(n, moments[y])
  }

  /** Message `j` makes a call at arrival `s`, and again at `t`, where its packet comes again. */
  predicate CallsAgain(n: Net, kind: Kind, s: nat, t: nat, j: nat)
    requires Arrivals(n)
  {
    ComesAgain(n, s, t) && j < Size(n, s) && CallAt(n, kind, s, j) != [] && CallAt(n, kind, t, j) != []
  }

  /** A call's book is known by packet and message. */
  lemma SameOrdinalIff(n: Net, a: Moment, b: Moment)
    requires Arrivals(n) && a.arrival < |n.run| && b.arrival < |n.run|
    requires Ends(n.packets, Index(n, a.arrival), a.message) && Ends(n.packets, Index(n, b.arrival), b.message)
    ensures Ordinal(n, a) == Ordinal(n, b) <==> Index(n, a.arrival) == Index(n, b.arrival) && a.message == b.message
  {
    if Precedes(Index(n, a.arrival), a.message, Index(n, b.arrival), b.message) {
      LaterOrdinal(n, a, b);
    } else if Precedes(Index(n, b.arrival), b.message, Index(n, a.arrival), a.message) {
      LaterOrdinal(n, b, a);
    }
  }

  /** Every call of an accepted message is among the moments. */
  lemma {:induction false} MomentIsListed(n: Net, kind: Kind, s: nat, i: nat, k: nat, j: nat)
    requires Arrivals(n) && IsMoment(n, k, j) && Accepted(n, s) && i < Size(n, s) && CallAt(n, kind, s, i) != []
    requires Precedes(s, i, k, j)
    ensures Moment(s, i) in MomentsBefore(n, kind, k, j)
    decreases k, j
  {
    hide CallAt, Accepted;
    if j > 0 {
      if s != k || i != j - 1 {
        MomentIsListed(n, kind, s, i, k, j - 1);
      }
    } else {
      MomentIsListed(n, kind, s, i, k - 1, if Accepted(n, k - 1) then Size(n, k - 1) else 0);
    }
  }

  lemma MomentOfCall(n: Net, kind: Kind, s: nat, i: nat)
    requires Arrivals(n) && s < |n.run| && Accepted(n, s) && i < Size(n, s) && CallAt(n, kind, s, i) != []
    ensures Moment(s, i) in Moments(n, kind)
  {
    hide CallAt, Accepted;
    var k := |n.run| - 1;
    MomentIsListed(n, kind, s, i, k, if Accepted(n, k) then Size(n, k) else 0);
  }

  /**
   In every run, of either receiver, two calls name the same book iff the packet of an accepted arrival
   comes again directly behind its predecessor, and a message of it makes a call both times.
   */
  lemma {:induction false} NamesTwiceIff(n: Net, kind: Kind)
    requires Fair(n)
    ensures NamesTwice(n, kind) <==> exists s: nat, t: nat, j: nat :: CallsAgain(n, kind, s, t, j)
  {
    hide CallAt, Accepted, Legal, NoUnnoticedGap, Moments, Final, CallsAgain;
    CallsComeFromBooks(n, kind);
    var moments := Moments(n, kind);
    if NamesTwice(n, kind) {
      var x: nat, y: nat :| x < y < |moments| && Ordinal(n, moments[x]) == Ordinal(n, moments[y]);
      var a, b := moments[x], moments[y];
      TwoMomentsCallAgain(n, kind, a, b, Final(n, kind).calls[x], Final(n, kind).calls[y]);
      assert CallsAgain(n, kind, a.arrival, b.arrival, a.message);
    }
    if s: nat, t: nat, j: nat :| CallsAgain(n, kind, s, t, j) {
      CallsAgainIsTwice(n, kind, s, t, j);
    }
  }

  lemma TwoMomentsCallAgain(n: Net, kind: Kind, a: Moment, b: Moment, c: SequencerCall, d: SequencerCall)
    requires Fair(n) && MadeAt(n, kind, a.arrival, a.message, c) && MadeAt(n, kind, b.arrival, b.message, d)
    requires Precedes(a.arrival, a.message, b.arrival, b.message) && Ordinal(n, a) == Ordinal(n, b)
    ensures CallsAgain(n, kind, a.arrival, b.arrival, a.message)
  {
    hide CallAt, Accepted, Legal, NoUnnoticedGap, Ordinal;
    SameOrdinalIff(n, a, b);
    AcceptedIsNext(n, a.arrival, b.arrival);
  }

  lemma CallsAgainIsTwice(n: Net, kind: Kind, s: nat, t: nat, j: nat)
    requires Fair(n) && CallsAgain(n, kind, s, t, j)
    ensures NamesTwice(n, kind)
  {
    hide CallAt, Accepted, Legal, NoUnnoticedGap, Moments, Final;
    CallsComeFromBooks(n, kind);
    NextIsAccepted(n, t);
    MomentOfCall(n, kind, s, j);
    MomentOfCall(n, kind, t, j);
    var moments := Moments(n, kind);
    var x: nat :| x < |moments| && moments[x] == Moment(s, j);
    var y: nat :| y < |moments| && moments[y] == Moment(t, j);
    OneCallAtMost(n, kind, s, j);
    SameOrdinalIff(n, moments[x], moments[y]);
  }

  // A stretch without interruption

  /** The calls about one instrument, in order. */
  function CallsOn(calls: seq<SequencerCall>, g: uint32): seq<SequencerCall> {
    if calls == [] then [] else
      var m := |calls| - 1;
      CallsOn(calls[..m], g) + (if calls[m].instrumentId == g then [calls[m]] else [])
  }

  /** The whole calls for the books about one instrument, in order. */
  function WholeCalls(kind: Kind, table: Table, books: seq<Book>, g: uint32): seq<SequencerCall> {
    if books == [] then [] else
      var m := |books| - 1;
      WholeCalls(kind, table, books[..m], g)
      + (if books[m] != [] && books[m][0].instrumentId == g then WholeCall(kind, table, books[m]) else [])
  }

  predicate OpenAbout(n: Net, k: nat, j: nat, g: uint32)
    requires Arrivals(n) && IsMoment(n, k, j)
  {
    var open := OpenBefore(n.packets, Index(n, k), j);
    open != [] && open[0].instrumentId == g
  }

  /** Nothing of the instrument's unfinished book was missed. */
  predicate OpenInHand(n: Net, kind: Kind, k: nat, j: nat, g: uint32)
    requires Arrivals(n) && IsMoment(n, k, j)
  {
    OpenAbout(n, k, j, g) ==>
      var places := PlacesBefore(n.packets, Index(n, k), j);
      forall x: nat :: x < |places| ==> InHand(n, kind, k, places[x])
  }

  /** Message `j` of arrival `k` brings a fragment about the instrument only if the fragment is taken. */
  predicate TakesAll(n: Net, kind: Kind, k: nat, j: nat, g: uint32)
    requires Arrivals(n) && k < |n.run| && j < Size(n, k)
  {
    var m := MessageAt(n, k, j);
    m.Levels? && m.fragment.instrumentId == g ==> Took(n, kind, k, j)
  }

  lemma InHandHere(n: Net, kind: Kind, k: nat, j: nat)
    requires Arrivals(n) && k < |n.run| && j < Size(n, k) && MessageAt(n, k, j).Levels? && Accepted(n, k) && Took(n, kind, k, j)
    ensures InHand(n, kind, k, Place(Index(n, k), j))
  {
    assert Followed(n, k, 0);
  }

  lemma MessageKeepsInHand(n: Net, kind: Kind, k: nat, j: nat, g: uint32)
    requires Fair(n) && k < |n.run| && Accepted(n, k) && j < Size(n, k)
    requires OpenInHand(n, kind, k, j, g) && TakesAll(n, kind, k, j, g)
    ensures OpenInHand(n, kind, k, j + 1, g)
  {
    hide InHand, Took, Accepted, OpenBefore, PlacesBefore, Legal, NoUnnoticedGap;
    NextMessage(n, kind, k, j);
    LegalHere(n, k, j);
    PlacesArePlaces(n.packets, Index(n, k), j);
    var m := MessageAt(n, k, j);
    if m.Levels? && m.fragment.instrumentId == g {
      InHandHere(n, kind, k, j);
    }
  }

  lemma FrameKeepsInHand(n: Net, kind: Kind, k: nat, g: uint32)
    requires Arrivals(n) && 0 < k < |n.run| && Accepted(n, k) && Accepted(n, k - 1) && Index(n, k - 1) + 1 == Index(n, k)
    requires OpenInHand(n, kind, k - 1, Size(n, k - 1), g)
    ensures OpenInHand(n, kind, k, 0, g)
  {
    hide InHand, Accepted, OpenBefore, PlacesBefore;
    NextFrame(n, k);
    PlacesArePlaces(n.packets, Index(n, k), 0);
    var places := PlacesBefore(n.packets, Index(n, k), 0);
    forall x: nat | x < |places|
      ensures InHand(n, kind, k, places[x]) <==> InHand(n, kind, k - 1, places[x])
    {
      InHandNext(n, kind, k, places[x]);
    }
  }

  lemma SameCall(kind: Kind, table: Table, later: Table, f: Fragment, held: seq<Level>)
    requires Served(table, f.instrumentId) && Extends(table, later)
    ensures CallFor(kind, later, f, held) == CallFor(kind, table, f, held)
  {
  }

  /** With nothing of it missed, finishing a book of the instrument hands over the whole of it. */
  lemma FinishedWhole(n: Net, kind: Kind, k: nat, j: nat, g: uint32, table: Table)
    requires Fair(n) && k < |n.run| && Accepted(n, k) && j < Size(n, k) && Ends(n.packets, Index(n, k), j)
    requires MessageAt(n, k, j).fragment.instrumentId == g
    requires OpenInHand(n, kind, k, j, g) && TakesAll(n, kind, k, j, g)
    requires Served(table, g) && Extends(table, TableAt(n, k, j))
    ensures CallAt(n, kind, k, j) == WholeCall(kind, table, BookAt(n, k, j))
  {
    hide InHand, Took, Accepted, CallFor, HeldOf, LevelsOf, TableAt, OpenBefore, PlacesBefore, Legal, NoUnnoticedGap;
    var p := Index(n, k);
    LegalHere(n, k, j);
    PlacesArePlaces(n.packets, p, j);
    InHandHere(n, kind, k, j);
    PlacesOfBook(n, k, j);
    HeldLevels(n, kind, k, BookAt(n, k, j), PlacesOf(n.packets, p, j));
    SameCall(kind, table, TableAt(n, k, j), MessageAt(n, k, j).fragment, LevelsOf(BookAt(n, k, j)));
  }

  /** The books finished from message `i` of arrival `s` on, before message `j` of arrival `k`. */
  function BooksBetween(n: Net, s: nat, i: nat, k: nat, j: nat): seq<Book>
    requires Arrivals(n) && IsMoment(n, s, i) && IsMoment(n, k, j)
    requires NotAfter(Index(n, s), i, Index(n, k), j)
  {
    PublishedGrows(n.packets, Index(n, s), i, Index(n, k), j);
    Published(n.packets, Index(n, k), j)[|Published(n.packets, Index(n, s), i)|..]
  }

  /**
   From message `i` of arrival `s` to message `j` of arrival `k` all frames were accepted and brought
   neighbouring packets. At the beginning no book of the instrument is unfinished and it is served,
   and every fragment about it is taken.
   */
  ghost predicate Stretch(n: Net, kind: Kind, s: nat, i: nat, k: nat, j: nat, g: uint32)
    requires Arrivals(n)
  {
    && IsMoment(n, s, i) && IsMoment(n, k, j) && NotAfter(s, i, k, j)
    && Followed(n, k, k - s)
    && !OpenAbout(n, s, i, g) && Served(TableBefore(n, s, i), g)
    && forall t: nat, l: nat :: Precedes(t, l, k, j) && l < Size(n, t) && NotAfter(s, i, t, l) ==> TakesAll(n, kind, t, l, g)
  }

  lemma StretchBackMessage(n: Net, kind: Kind, s: nat, i: nat, k: nat, j: nat, g: uint32)
    requires Arrivals(n) && j > 0 && (s != k || i != j) && Stretch(n, kind, s, i, k, j, g)
    ensures Stretch(n, kind, s, i, k, j - 1, g) && Accepted(n, k) && TakesAll(n, kind, k, j - 1, g)
  {
    hide TakesAll, TableBefore, OpenAbout, Served;
    assert Precedes(k, j - 1, k, j) && NotAfter(s, i, k, j - 1);
    assert forall t: nat, l: nat :: Precedes(t, l, k, j - 1) ==> Precedes(t, l, k, j);
  }

  lemma StretchBackFrame(n: Net, kind: Kind, s: nat, i: nat, k: nat, g: uint32)
    requires Arrivals(n) && s < k && Stretch(n, kind, s, i, k, 0, g)
    ensures Accepted(n, k) && Accepted(n, k - 1) && Index(n, k - 1) + 1 == Index(n, k)
    ensures Stretch(n, kind, s, i, k - 1, Size(n, k - 1), g)
  {
    hide TakesAll, TableBefore, OpenAbout, Served, Accepted;
    FollowedNeedsThePrevious(n, k, k - s);
    FollowedStep(n, k, k - s);
    var l, e := k - 1, Size(n, k - 1);
    assert forall t: nat, m: nat :: Precedes(t, m, l, e) ==> Precedes(t, m, k, 0);
  }

  lemma StretchAscends(n: Net, kind: Kind, s: nat, i: nat, k: nat, j: nat, g: uint32)
    requires Arrivals(n) && Stretch(n, kind, s, i, k, j, g)
    ensures NotAfter(Index(n, s), i, Index(n, k), j)
  {
    assert Index(n, s) + (k - s) == Index(n, k);
  }

  /** What a stretch adds to the calls about the instrument, and that nothing of its unfinished book is missed. */
  lemma {:induction false} StretchHandsOver(n: Net, kind: Kind, s: nat, i: nat, k: nat, j: nat, g: uint32)
    requires Fair(n) && Stretch(n, kind, s, i, k, j, g)
    ensures NotAfter(Index(n, s), i, Index(n, k), j)
    ensures OpenInHand(n, kind, k, j, g)
    ensures CallsOn(CallsBefore(n, kind, k, j), g)
         == CallsOn(CallsBefore(n, kind, s, i), g)
            + WholeCalls(kind, TableBefore(n, s, i), BooksBetween(n, s, i, k, j), g)
    decreases k, j
  {
    hide Stretch, CallsBefore, OpenInHand, CallsOn, WholeCalls, Legal, NoUnnoticedGap, Accepted;
    StretchParts(n, kind, s, i, k, j, g);
    StretchAscends(n, kind, s, i, k, j, g);
    if s == k && i == j {
      StretchOfNothing(n, kind, k, j, g);
    } else if j > 0 {
      StretchBackMessage(n, kind, s, i, k, j, g);
      StretchHandsOver(n, kind, s, i, k, j - 1, g);
      StretchMessage(n, kind, s, i, k, j - 1, g);
    } else {
      StretchBackFrame(n, kind, s, i, k, g);
      StretchHandsOver(n, kind, s, i, k - 1, Size(n, k - 1), g);
      FrameKeepsInHand(n, kind, k, g);
      NextFrame(n, k);
      SameCallsBefore(n, kind, k);
      SamePublished(n, k);
    }
  }

  lemma StretchParts(n: Net, kind: Kind, s: nat, i: nat, k: nat, j: nat, g: uint32)
    requires Arrivals(n) && Stretch(n, kind, s, i, k, j, g)
    ensures IsMoment(n, s, i) && IsMoment(n, k, j) && NotAfter(s, i, k, j)
  {
  }

  lemma SameCallsBefore(n: Net, kind: Kind, k: nat)
    requires Arrivals(n) && 0 < k < |n.run| && Accepted(n, k - 1)
    ensures CallsBefore(n, kind, k, 0) == CallsBefore(n, kind, k - 1, Size(n, k - 1))
  {
  }

  lemma SamePublished(n: Net, k: nat)
    requires Arrivals(n) && 0 < k < |n.run| && Index(n, k - 1) + 1 == Index(n, k)
    ensures Published(n.packets, Index(n, k), 0) == Published(n.packets, Index(n, k - 1), Size(n, k - 1))
  {
  }

  lemma StretchOfNothing(n: Net, kind: Kind, k: nat, j: nat, g: uint32)
    requires Arrivals(n) && Stretch(n, kind, k, j, k, j, g)
    ensures OpenInHand(n, kind, k, j, g)
    ensures CallsOn(CallsBefore(n, kind, k, j), g)
         == CallsOn(CallsBefore(n, kind, k, j), g) + WholeCalls(kind, TableBefore(n, k, j), BooksBetween(n, k, j, k, j), g)
  {
  }

  lemma CallsOnMore(calls: seq<SequencerCall>, more: seq<SequencerCall>, g: uint32)
    requires |more| <= 1
    ensures CallsOn(calls + more, g) == CallsOn(calls, g) + (if more != [] && more[0].instrumentId == g then more else [])
  {
    if more != [] {
      assert (calls + more)[..|calls|] == calls && more == [more[0]];
    } else {
      assert calls + more == calls;
    }
  }

  lemma WholeCallsMore(kind: Kind, table: Table, books: seq<Book>, book: Book, g: uint32)
    requires book != []
    ensures WholeCalls(kind, table, books + [book], g)
         == WholeCalls(kind, table, books, g) + (if book[0].instrumentId == g then WholeCall(kind, table, book) else [])
  {
    assert (books + [book])[..|books|] == books;
  }

  lemma CallIsAbout(n: Net, kind: Kind, k: nat, j: nat)
    requires Arrivals(n) && k < |n.run| && j < Size(n, k)
    ensures var calls := CallAt(n, kind, k, j);
            |calls| <= 1 && (calls != [] ==> Ends(n.packets, Index(n, k), j) && calls[0].instrumentId == MessageAt(n, k, j).fragment.instrumentId)
  {
  }

  lemma StretchTable(n: Net, kind: Kind, s: nat, i: nat, k: nat, j: nat, g: uint32)
    requires Arrivals(n) && k < |n.run| && Stretch(n, kind, s, i, k, j, g) && j < Size(n, k)
    ensures Served(TableBefore(n, s, i), g) && Extends(TableBefore(n, s, i), TableAt(n, k, j))
  {
    hide TakesAll;
    assert k - (k - s) == s && Accepted(n, s);
    TablesExtend(n, k, j, s, i);
    LearnExtends(TableBefore(n, k, j), MessageAt(n, k, j), n.run[k].around[j]);
  }

  lemma StretchMessage(n: Net, kind: Kind, s: nat, i: nat, k: nat, j: nat, g: uint32)
    requires Fair(n) && k < |n.run| && Stretch(n, kind, s, i, k, j, g) && j < Size(n, k) && Accepted(n, k) && TakesAll(n, kind, k, j, g)
    requires NotAfter(Index(n, s), i, Index(n, k), j)
    requires OpenInHand(n, kind, k, j, g)
    requires CallsOn(CallsBefore(n, kind, k, j), g)
          == CallsOn(CallsBefore(n, kind, s, i), g) + WholeCalls(kind, TableBefore(n, s, i), BooksBetween(n, s, i, k, j), g)
    ensures OpenInHand(n, kind, k, j + 1, g)
    ensures CallsOn(CallsBefore(n, kind, k, j + 1), g)
         == CallsOn(CallsBefore(n, kind, s, i), g) + WholeCalls(kind, TableBefore(n, s, i), BooksBetween(n, s, i, k, j + 1), g)
  {
    hide Stretch, CallsBefore, OpenInHand, CallsOn, WholeCalls, WholeCall, CallAt, TakesAll, TableBefore, Accepted, Legal;
    hide NoUnnoticedGap, BooksBetween, OpenBefore, PlacesBefore, Published, Followed;
    StretchParts(n, kind, s, i, k, j, g);
    var table := TableBefore(n, s, i);
    MessageKeepsInHand(n, kind, k, j, g);
    NextMessage(n, kind, k, j);
    CallIsAbout(n, kind, k, j);
    CallsOnMore(CallsBefore(n, kind, k, j), CallAt(n, kind, k, j), g);
    BooksMore(n, s, i, k, j);
    var calls, whole := CallsOn(CallsBefore(n, kind, k, j), g), WholeCalls(kind, table, BooksBetween(n, s, i, k, j), g);
    assert calls + [] == calls && whole + [] == whole && BooksBetween(n, s, i, k, j) + [] == BooksBetween(n, s, i, k, j);
    if Ends(n.packets, Index(n, k), j) {
      var books, book := BooksBetween(n, s, i, k, j), BookAt(n, k, j);
      BookEndingAtIsWhole(n.packets, Index(n, k), j);
      WholeCallsMore(kind, table, books, book, g);
      if book[0].instrumentId == g {
        StretchTable(n, kind, s, i, k, j, g);
        FinishedWhole(n, kind, k, j, g, table);
        Assoc(CallsOn(CallsBefore(n, kind, s, i), g), WholeCalls(kind, table, books, g), WholeCall(kind, table, book));
        WholeCallIsAbout(kind, table, book);
      }
    }
  }

  lemma BooksMore(n: Net, s: nat, i: nat, k: nat, j: nat)
    requires Arrivals(n) && IsMoment(n, s, i) && k < |n.run| && j < Size(n, k) && NotAfter(Index(n, s), i, Index(n, k), j)
    ensures BooksBetween(n, s, i, k, j + 1)
         == BooksBetween(n, s, i, k, j) + if Ends(n.packets, Index(n, k), j) then [BookAt(n, k, j)] else []
  {
    PublishedGrows(n.packets, Index(n, s), i, Index(n, k), j);
  }

  lemma WholeCallIsAbout(kind: Kind, table: Table, book: Book)
    requires book != []
    ensures var calls := WholeCall(kind, table, book);
            |calls| <= 1 && (calls != [] ==> calls[0].instrumentId == book[|book| - 1].instrumentId)
  {
  }

  // No mixing

  lemma HoldsIsAbout(kind: Kind, s: ChannelState, table: Table, open: Book, held: seq<Level>, following: bool)
    requires Holds(kind, s, table, open, held, following) && s.instrumentId != 0
    ensures IsAbout(open, s.instrumentId)
  {
  }

  /** The debug assertion never fails, and the buffered instrument is always that of the sender's unfinished book. */
  lemma {:induction false} InstrumentsNeverMix(n: Net, kind: Kind, k: nat)
    requires Fair(n) && k <= |n.run|
    ensures var r := Before(n, kind, k);
            && !r.mixed
            && (r.channel.instrumentId != 0 ==>
                  k > 0 && IsAbout(OpenBefore(n.packets, Index(n, k - 1), Size(n, k - 1)), r.channel.instrumentId))
  {
    hide Holds, Accepted, Legal, NoUnnoticedGap;
    RunKeepsInvariant(n, kind, k);
    if k > 0 && Accepted(n, k - 1) {
      var r, p, j := Before(n, kind, k), Index(n, k - 1), Size(n, k - 1);
      if r.channel.instrumentId != 0 {
        HoldsIsAbout(kind, r.channel, r.table, OpenBefore(n.packets, p, j),
                     HeldOf(n, kind, k - 1, PlacesBefore(n.packets, p, j)), Following(n, k - 1, j));
      }
    }
  }

  // The one gap that can go unnoticed

  lemma HeldMakesUpdates(kind: Kind, s: ChannelState, table: Table, open: Book, held: seq<Level>, following: bool)
    requires Holds(kind, s, table, open, held, following)
    ensures var m := MultiplierOf(table, open);
            && s.bids == Scaled(held, Buy, m) && s.asks == Scaled(held, Sell, m)
            && (s.bids == [] && s.asks == [] <==> held == [])
            && (kind.Snapshots? ==> s.ready == following)
  {
    ScaledCount(held, MultiplierOf(table, open));
  }

  /**
   What a jump accepted after a fair run that ended with an accepted frame carries over into the packet it
   brings: the levels in hand of the book left unfinished, none iff none are in hand, and the followed cycle.
   */
  lemma {:induction false} UnnoticedGapCarries(n: Net, kind: Kind, number: uint32)
    requires Fair(n) && n.run != [] && Accepted(n, |n.run| - 1)
    requires var s := Final(n, kind).channel; Accepts(s, number) && number != Succ(s.previous)
    ensures var k := |n.run| - 1;
            var j, r := Size(n, k), Final(n, kind);
            var t, open := Gate(r.channel, number), OpenBefore(n.packets, Index(n, k), j);
            var held, m := HeldOf(n, kind, k, PlacesBefore(n.packets, Index(n, k), j)), MultiplierOf(r.table, open);
            && t.bids == Scaled(held, Buy, m) && t.asks == Scaled(held, Sell, m)
            && (t.bids == [] && t.asks == [] <==> held == [])
            && (kind.Snapshots? ==> t.ready == Following(n, k, j))
            && t.initialized
  {
    hide Holds, Accepted, Legal, NoUnnoticedGap, Scaled, HeldOf, Following;
    var k := |n.run| - 1;
    RunKeepsInvariant(n, kind, |n.run|);
    var r, p, j := Final(n, kind), Index(n, k), Size(n, k);
    HeldMakesUpdates(kind, r.channel, r.table, OpenBefore(n.packets, p, j),
                     HeldOf(n, kind, k, PlacesBefore(n.packets, p, j)), Following(n, k, j));
    AcceptedKeepsBuffers(r.channel, number);
  }

  // Fragments that come while their instrument is served

  /**
   Every frame from that of the fragment at `place` up to arrival `k` was accepted, and the
   instrument was served when the fragment came.
   */
  predicate CameServed(n: Net, k: nat, place: Place)
    requires Arrivals(n) && k < |n.run|
  {
    && IsPlace(n, place) && place.packet <= Index(n, k)
    && Followed(n, k, Index(n, k) - place.packet)
    && var t := k - (Index(n, k) - place.packet);
       Index(n, t) == place.packet && ServedAt(n, t, place.message)
  }

  /** Once a frame is followed and the instrument served, so it is for what comes later. */
  lemma LaterIsServed(n: Net, k: nat, a: Place, b: Place)
    requires Arrivals(n) && k < |n.run| && CameServed(n, k, a)
    requires IsPlace(n, b) && b.packet <= Index(n, k) && NotAfter(a.packet, a.message, b.packet, b.message)
    requires FragmentAt(n, a).instrumentId == FragmentAt(n, b).instrumentId
    ensures CameServed(n, k, b)
  {
    hide Accepted, Learn, Extends, Served;
    var s, t := k - (Index(n, k) - a.packet), k - (Index(n, k) - b.packet);
    FollowedLater(n, k, Index(n, k) - a.packet, Index(n, k) - b.packet);
    if a != b {
      assert k - (Index(n, k) - a.packet) == s && Accepted(n, s);
      TablesExtend(n, t, b.message, s, a.message + 1);
      LearnExtends(TableBefore(n, s, a.message), MessageAt(n, s, a.message), n.run[s].around[a.message]);
      LearnExtends(TableBefore(n, t, b.message), MessageAt(n, t, b.message), n.run[t].around[b.message]);
      StillServed(TableAt(n, s, a.message), TableBefore(n, s, a.message + 1), TableBefore(n, t, b.message), TableAt(n, t, b.message),
                  FragmentAt(n, a).instrumentId);
    }
  }

  lemma FollowedLater(n: Net, k: nat, d: nat, e: nat)
    requires Followed(n, k, d) && e <= d
    ensures Followed(n, k, e) && Index(n, k - e) + e == Index(n, k)
  {
    assert k - d <= k - e <= k;
  }

  lemma StillServed(a: Table, b: Table, c: Table, d: Table, g: uint32)
    requires Extends(a, b) && Extends(b, c) && Extends(c, d) && Served(a, g)
    ensures Served(d, g)
  {
  }

  /** The places of the book that a message finishes. */
  lemma PlacesInOrder(n: Net, k: nat, j: nat, x: nat, y: nat)
    requires Fair(n) && k < |n.run| && j < Size(n, k) && Ends(n.packets, Index(n, k), j)
    requires x <= y < |PlacesOf(n.packets, Index(n, k), j)|
    ensures var places := PlacesOf(n.packets, Index(n, k), j);
            && IsPlace(n, places[x]) && IsPlace(n, places[y]) && places[y].packet <= Index(n, k)
            && NotAfter(places[x].packet, places[x].message, places[y].packet, places[y].message)
            && FragmentAt(n, places[x]).instrumentId == FragmentAt(n, places[y]).instrumentId == MessageAt(n, k, j).fragment.instrumentId
  {
    hide Legal, NoUnnoticedGap;
    var p := Index(n, k);
    PlacesArePlaces(n.packets, p, j);
    PlacesOfBook(n, k, j);
    BookEndingAtIsWhole(n.packets, p, j);
    var book, places := BookAt(n, k, j), PlacesOf(n.packets, p, j);
    assert IsPlaceOf(n.packets, places[x], book[x]) && IsPlaceOf(n.packets, places[y], book[y]);
    if y < |PlacesBefore(n.packets, p, j)| {
      PlacesAscend(n.packets, p, j, x, y);
    }
  }

  lemma FirstCameServed(n: Net, s: nat, k: nat, place: Place)
    requires Arrivals(n) && s <= k && Followed(n, k, k - s) && BackToBack(n, s, k)
    requires IsPlace(n, place) && place.packet == Index(n, s) && ServedAt(n, s, place.message)
    ensures CameServed(n, k, place)
  {
    hide Accepted;
    assert Index(n, s) + (k - s) == Index(n, k);
  }

  lemma LastIsServed(n: Net, k: nat, j: nat)
    requires Arrivals(n) && k < |n.run| && j < Size(n, k) && MessageAt(n, k, j).Levels?
    requires CameServed(n, k, Place(Index(n, k), j))
    ensures ServedAt(n, k, j)
  {
  }
}
