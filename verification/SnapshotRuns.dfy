/**
 The snapshot receiver (src/roq/deribit/gateway/udp_snapshot.cpp) end to end: what reaches the
 sequencers when the sender's packets arrive with any loss, duplication and reordering.
 */
module SnapshotRuns {
  import opened Words
  import opened Channels
  import opened Books
  import opened SharedState
  import opened Network
  import opened Receivers
  import opened Handovers
  import opened OneInstrument

  /** A whole book as the sequencer is given it. */
  function SnapshotOf(book: Book, multiplier: real): SequencerCall
    requires book != []
  {
    SnapshotCall(book[0].instrumentId, book[|book| - 1].changeId,
                 Scaled(LevelsOf(book), Buy, multiplier), Scaled(LevelsOf(book), Sell, multiplier))
  }

  /**
   When the fragment at `place` arrived, with the arrival as far before `k` as its packet is
   before that of `k`, its instrument was served and its sequencer was not ready.
   */
  predicate CameUsable(n: Net, k: nat, place: Place)
    requires Arrivals(n) && k < |n.run|
  {
    && IsPlace(n, place) && place.packet <= Index(n, k) <= place.packet + k
    && var t := k - (Index(n, k) - place.packet);
       Index(n, t) == place.packet && ServedAt(n, t, place.message) && IdleAt(n, t, place.message)
  }

  /** The place came with a frame since which all were accepted, while a cycle was followed. */
  predicate FollowedSince(n: Net, k: nat, place: Place)
    requires Arrivals(n) && k < |n.run|
  {
    && IsPlace(n, place) && place.packet <= Index(n, k)
    && Followed(n, k, Index(n, k) - place.packet)
    && var t := k - (Index(n, k) - place.packet);
       Index(n, t) == place.packet && Following(n, t, place.message)
  }

  lemma InHandIsUsable(n: Net, k: nat, place: Place)
    requires Arrivals(n) && k < |n.run| && FollowedSince(n, k, place)
    ensures InHand(n, Snapshots, k, place) <==> CameUsable(n, k, place)
  {
    hide Accepted, Following, ServedAt, IdleAt;
  }

  lemma FollowedSinceNext(n: Net, k: nat, place: Place)
    requires Arrivals(n) && 0 < k < |n.run| && Accepted(n, k) && Index(n, k - 1) + 1 == Index(n, k)
    requires FollowedSince(n, k - 1, place)
    ensures FollowedSince(n, k, place)
  {
    hide Accepted, Following, Followed;
    FollowedStep(n, k, Index(n, k) - place.packet);
  }

  lemma FollowedSinceHere(n: Net, k: nat, j: nat)
    requires Arrivals(n) && k < |n.run| && j < Size(n, k) && Accepted(n, k) && Following(n, k, j) && MessageAt(n, k, j).Levels?
    ensures FollowedSince(n, k, Place(Index(n, k), j))
  {
    assert Followed(n, k, 0);
  }

  /** While a cycle is followed, every fragment of the unfinished book came within it. */
  lemma {:induction false} PlacesAreFollowed(n: Net, k: nat, j: nat)
    requires Fair(n) && IsMoment(n, k, j) && Accepted(n, k) && Following(n, k, j)
    ensures var places := PlacesBefore(n.packets, Index(n, k), j);
            forall x: nat :: x < |places| ==> FollowedSince(n, k, places[x])
    decreases k, j
  {
    hide FollowedSince, Accepted, OpenBefore, Legal, NoUnnoticedGap;
    if j > 0 {
      if !MessageAt(n, k, j - 1).Start? {
        PlacesAreFollowed(n, k, j - 1);
      }
      PlacesStayFollowed(n, k, j - 1);
    } else {
      AcceptedIsNext(n, k - 1, k);
      PlacesAreFollowed(n, k - 1, Size(n, k - 1));
      NextFrame(n, k);
      var places := PlacesBefore(n.packets, Index(n, k), 0);
      forall x: nat | x < |places|
        ensures FollowedSince(n, k, places[x])
      {
        FollowedSinceNext(n, k, places[x]);
      }
    }
  }

  lemma PlacesStayFollowed(n: Net, k: nat, j: nat)
    requires Fair(n) && k < |n.run| && j < Size(n, k) && Accepted(n, k)
    requires Following(n, k, j + 1)
    requires !MessageAt(n, k, j).Start? ==>
               var places := PlacesBefore(n.packets, Index(n, k), j);
               forall x: nat :: x < |places| ==> FollowedSince(n, k, places[x])
    ensures var places := PlacesBefore(n.packets, Index(n, k), j + 1);
            forall x: nat :: x < |places| ==> FollowedSince(n, k, places[x])
  {
    hide FollowedSince, Accepted, Legal, NoUnnoticedGap, Following;
    NextMessage(n, Snapshots, k, j);
    LegalHere(n, k, j);
    PlacesArePlaces(n.packets, Index(n, k), j);
    if MessageAt(n, k, j).Levels? {
      FollowedSinceHere(n, k, j);
    }
  }

  /** A snapshot call is made only for a served instrument while a cycle is followed. */
  lemma {:induction false} CallsNeedACycle(n: Net, k: nat, j: nat, c: SequencerCall)
    requires Fair(n) && MadeAt(n, Snapshots, k, j, c)
    ensures ServedAt(n, k, j) && Following(n, k, j)
  {
    hide Holds, Accepted, Legal, NoUnnoticedGap;
    RunKeepsInvariant(n, Snapshots, k);
    FrameKeepsStep(n, Snapshots, k);
    MessagesKeepStep(n, Snapshots, k, j);
    HeldMore(n, Snapshots, k, j, PlacesBefore(n.packets, Index(n, k), j));
    HoldsOnlyInACycle(At(n, Snapshots, k, j).channel, At(n, Snapshots, k, j).table, OpenBefore(n.packets, Index(n, k), j),
                      HeldOf(n, Snapshots, k, PlacesBefore(n.packets, Index(n, k), j)), Following(n, k, j));
  }

  lemma HoldsOnlyInACycle(s: ChannelState, table: Table, open: Book, held: seq<Level>, following: bool)
    requires Holds(Snapshots, s, table, open, held, following)
    ensures held != [] ==> following
    ensures s.ready == following
  {
  }

  /**
   `c` was made by message `j` of arrival `k`, which finished a published book of a served instrument
   while a cycle was followed. It is the whole book iff every fragment with levels came while its
   instrument was served and its sequencer not ready.
   */
  ghost predicate SoundlyMadeAt(n: Net, k: nat, j: nat, c: SequencerCall)
    requires Arrivals(n)
  {
    && MadeAt(n, Snapshots, k, j, c)
    && ServedAt(n, k, j) && StartedBefore(n, k, j)
    && var book, places := BookAt(n, k, j), PlacesOf(n.packets, Index(n, k), j);
       && book in AllPublished(n.packets) && WholeBook(book) && |places| == |book|
       && c.SnapshotCall? && c.instrumentId == book[0].instrumentId && c.changeId == book[|book| - 1].changeId
       && (c == SnapshotOf(book, MultiplierAt(n, k, j))
           <==> forall x: nat :: x < |book| ==> book[x].levels == [] || CameUsable(n, k, places[x]))
  }

  lemma CallNamesItsBook(n: Net, k: nat, j: nat, c: SequencerCall)
    requires Arrivals(n) && MadeAt(n, Snapshots, k, j, c)
    ensures var f := MessageAt(n, k, j).fragment;
            c.SnapshotCall? && c.instrumentId == f.instrumentId && c.changeId == f.changeId
  {
  }

  lemma WholeCallIsSnapshot(table: Table, book: Book, c: SequencerCall)
    requires WholeBook(book) && Served(table, book[0].instrumentId)
    ensures var m := table[book[0].instrumentId].multiplier;
            [c] == WholeCall(Snapshots, table, book) <==> c == SnapshotOf(book, m) && LevelsOf(book) != []
  {
    assert book[|book| - 1].instrumentId == book[0].instrumentId;
  }

  /** A call that is made has levels. */
  lemma CallsHaveLevels(n: Net, k: nat, j: nat, c: SequencerCall)
    requires Arrivals(n) && MadeAt(n, Snapshots, k, j, c)
    ensures !(c.bids == [] && c.asks == [])
  {
    var table, f := TableAt(n, k, j), MessageAt(n, k, j).fragment;
    var held := HeldOf(n, Snapshots, k, PlacesOf(n.packets, Index(n, k), j));
    ScaledCount(held, table[f.instrumentId].multiplier);
  }

  lemma AllInHandIsUsable(n: Net, k: nat, book: Book, places: seq<Place>)
    requires Arrivals(n) && k < |n.run| && |places| == |book|
    requires forall x: nat :: x < |places| ==> FollowedSince(n, k, places[x])
    ensures AllInHand(n, Snapshots, k, book, places)
            <==> forall x: nat :: x < |book| ==> book[x].levels == [] || CameUsable(n, k, places[x])
  {
    hide InHand, CameUsable, FollowedSince;
    forall x: nat | x < |places|
      ensures InHand(n, Snapshots, k, places[x]) <==> CameUsable(n, k, places[x])
    {
      InHandIsUsable(n, k, places[x]);
    }
  }

  lemma BookPlacesAreFollowed(n: Net, k: nat, j: nat)
    requires Fair(n) && k < |n.run| && Accepted(n, k) && j < Size(n, k) && Ends(n.packets, Index(n, k), j) && Following(n, k, j)
    ensures var places := PlacesOf(n.packets, Index(n, k), j);
            forall x: nat :: x < |places| ==> FollowedSince(n, k, places[x])
  {
    PlacesAreFollowed(n, k, j);
    FollowedSinceHere(n, k, j);
    var before := PlacesBefore(n.packets, Index(n, k), j);
    forall x: nat | x < |before| ensures FollowedSince(n, k, before[x]) {
      assert FollowedSince(n, k, PlacesBefore(n.packets, Index(n, k), j)[x]);
    }
  }

  lemma {:induction false} CallIsSound(n: Net, k: nat, j: nat, c: SequencerCall)
    requires Fair(n) && MadeAt(n, Snapshots, k, j, c)
    ensures SoundlyMadeAt(n, k, j, c)
  {
    hide CallAt, FollowedSince, CameUsable, AllInHand, Accepted, WholeCall, SnapshotOf, WholeBook, StartedAt;
    hide Legal, NoUnnoticedGap, OpenBefore, PlacesBefore, Following, TableAt;
    var p := Index(n, k);
    var book, places, table := BookAt(n, k, j), PlacesOf(n.packets, p, j), TableAt(n, k, j);
    CallsNeedACycle(n, k, j, c);
    FollowingIff(n, k, j);
    PlacesOfBook(n, k, j);
    BookPlacesAreFollowed(n, k, j);
    BookEndingAtIsWhole(n.packets, p, j);
    BookIsPublished(n.packets, p, j);
    CallNamesItsBook(n, k, j, c);
    CallsHaveLevels(n, k, j, c);
    WholeIffAllInHand(n, Snapshots, k, j);
    AllInHandIsUsable(n, k, book, places);
    WholeCallIsSnapshot(table, book, c);
    EmptyBookEmptyCall(book, c, table[c.instrumentId].multiplier);
  }

  lemma EmptyBookEmptyCall(book: Book, c: SequencerCall, m: real)
    requires book != []
    ensures LevelsOf(book) == [] && c == SnapshotOf(book, m) ==> c.bids == [] && c.asks == []
  {
  }

  /**
   Snapshot soundness. Whatever was lost, repeated or reordered, each call names one published book,
   and is that whole book exactly if the instrument was served and its sequencer not ready at each
   arrival that carried a fragment of it with levels.
   */
  lemma {:induction false} SnapshotSoundness(n: Net, c: SequencerCall)
    requires Fair(n) && c in Final(n, Snapshots).calls
    ensures exists k: nat, j: nat :: SoundlyMadeAt(n, k, j, c)
  {
    hide SoundlyMadeAt, MadeAt, Final, Moments, Legal, NoUnnoticedGap;
    CallsComeFromBooks(n, Snapshots);
    var x: nat :| x < |Final(n, Snapshots).calls| && Final(n, Snapshots).calls[x] == c;
    var m := Moments(n, Snapshots)[x];
    CallIsSound(n, m.arrival, m.message, c);
  }

  // An instrument that stays known and idle

  /** Around every message the instrument is defined, not discarded, and its sequencer is not ready. */
  predicate KnownAndIdle(n: Net, g: uint32)
    requires Arrivals(n)
  {
    forall k: nat, j: nat :: k < |n.run| && j < |n.run[k].around| ==>
      var around := n.run[k].around[j];
      Served(around.defined, g) && g !in around.sequencersReady
  }

  predicate NotDiscarded(table: Table, g: uint32) {
    g in table ==> !table[g].discard
  }

  lemma LearnKeepsServed(table: Table, m: Message, around: Surroundings, g: uint32)
    requires NotDiscarded(table, g) && Served(around.defined, g)
    ensures Served(around.defined + table, g) && Served(Learn(table, m, around), g)
  {
  }

  lemma {:induction false} KnownIsServed(n: Net, k: nat, j: nat, g: uint32)
    requires Arrivals(n) && KnownAndIdle(n, g) && IsMoment(n, k, j)
    ensures NotDiscarded(TableBefore(n, k, j), g)
    ensures j < Size(n, k) ==> Served(TableAt(n, k, j), g)
    decreases k, j
  {
    hide Learn, Accepted;
    if j > 0 {
      KnownIsServed(n, k, j - 1, g);
      LearnKeepsServed(TableBefore(n, k, j - 1), MessageAt(n, k, j - 1), n.run[k].around[j - 1], g);
    } else if k > 0 {
      KnownIsServed(n, k - 1, if Accepted(n, k - 1) then Size(n, k - 1) else 0, g);
    }
    if j < Size(n, k) {
      LearnKeepsServed(TableBefore(n, k, j), Ignored, n.run[k].around[j], g);
    }
  }

  /** If an instrument stays known and idle, every call about it is a whole published book. */
  lemma {:induction false} SnapshotsAreWhole(n: Net, g: uint32, c: SequencerCall)
    requires Fair(n) && KnownAndIdle(n, g) && c in Final(n, Snapshots).calls && c.instrumentId == g
    ensures exists book: Book ::
              && book in AllPublished(n.packets) && WholeBook(book) && book[0].instrumentId == g
              && c == SnapshotOf(book, MultiplierOf(Final(n, Snapshots).table, book))
              && c.SnapshotCall? && g in Final(n, Snapshots).table
              && HoldsLevels(c, book[|book| - 1], LevelsOf(book), Final(n, Snapshots).table[g].multiplier)
  {
    hide Final, MadeAt, Legal, NoUnnoticedGap, KnownAndIdle, SnapshotOf, AllPublished, StartedBefore;
    SnapshotSoundness(n, c);
    var k: nat, j: nat :| SoundlyMadeAt(n, k, j, c);
    MadeInRange(n, k, j, c);
    var book, places := BookAt(n, k, j), PlacesOf(n.packets, Index(n, k), j);
    forall x: nat | x < |book|
      ensures book[x].levels == [] || CameUsable(n, k, places[x])
    {
      KnownCameUsable(n, k, j, c, x);
    }
    MultiplierStays(n, k, j, c);
    NoCallsForDiscarded(n, Snapshots, c);
    SnapshotHoldsLevels(book, Final(n, Snapshots).table);
  }

  lemma SnapshotHoldsLevels(book: Book, table: Table)
    requires WholeBook(book) && Served(table, book[0].instrumentId)
    ensures HoldsLevels(SnapshotOf(book, MultiplierOf(table, book)), book[|book| - 1], LevelsOf(book), table[book[0].instrumentId].multiplier)
  {
    var m := table[book[0].instrumentId].multiplier;
    ScaledIsSide(LevelsOf(book), Buy, m);
    ScaledIsSide(LevelsOf(book), Sell, m);
    hide Scaled, IsSide, LevelsOf;
  }

  lemma MadeInRange(n: Net, k: nat, j: nat, c: SequencerCall)
    requires Arrivals(n) && MadeAt(n, Snapshots, k, j, c)
    ensures k < |n.run| && Accepted(n, k) && j < Size(n, k) && Ends(n.packets, Index(n, k), j)
  {
  }

  lemma KnownCameUsable(n: Net, k: nat, j: nat, c: SequencerCall, x: nat)
    requires Fair(n) && KnownAndIdle(n, c.instrumentId) && SoundlyMadeAt(n, k, j, c) && x < |BookAt(n, k, j)|
    ensures CameUsable(n, k, PlacesOf(n.packets, Index(n, k), j)[x])
  {
    hide Accepted, Legal, NoUnnoticedGap, StartedBefore, CallAt, SnapshotOf, Published, AllPublished, StartedAt;
    MadeInRange(n, k, j, c);
    CallsNeedACycle(n, k, j, c);
    BookPlacesAreFollowed(n, k, j);
    PlacesOfBook(n, k, j);
    var place := PlacesOf(n.packets, Index(n, k), j)[x];
    assert FollowedSince(n, k, place) && IsPlaceOf(n.packets, place, BookAt(n, k, j)[x]);
    KnownIsServed(n, k - (Index(n, k) - place.packet), place.message, c.instrumentId);
  }

  lemma MultiplierStays(n: Net, k: nat, j: nat, c: SequencerCall)
    requires Fair(n) && SoundlyMadeAt(n, k, j, c)
    ensures MultiplierOf(Final(n, Snapshots).table, BookAt(n, k, j)) == MultiplierAt(n, k, j)
  {
    hide Accepted, Legal, NoUnnoticedGap, StartedBefore, CallAt, SnapshotOf, Learn, Published, AllPublished, CameUsable;
    MadeInRange(n, k, j, c);
    FinalTableExtends(n, Snapshots, k, j);
  }

  // Cycles

  /** The channel is ready exactly while a cycle is followed: see `StartedAt`. */
  lemma {:induction false} ReadyIffFollowing(n: Net, k: nat)
    requires Fair(n) && k <= |n.run|
    ensures Before(n, Snapshots, k).channel.ready
            <==> k > 0 && Accepted(n, k - 1) && StartedBefore(n, k - 1, Size(n, k - 1))
  {
    hide Holds, Accepted, Legal, NoUnnoticedGap, StartedBefore, Following;
    RunKeepsInvariant(n, Snapshots, k);
    if k > 0 && Accepted(n, k - 1) {
      var r, p, j := Before(n, Snapshots, k), Index(n, k - 1), Size(n, k - 1);
      FollowingIff(n, k - 1, j);
      HoldsOnlyInACycle(r.channel, r.table, OpenBefore(n.packets, p, j),
                        HeldOf(n, Snapshots, k - 1, PlacesBefore(n.packets, p, j)), Following(n, k - 1, j));
    }
  }

  /** From message `i` of arrival `s` on, before message `j` of arrival `k`, the sequencer of the instrument is not ready. */
  ghost predicate IdleSince(n: Net, s: nat, i: nat, k: nat, j: nat, g: uint32)
    requires Arrivals(n) && k < |n.run|
  {
    forall t: nat, l: nat :: Precedes(t, l, k, j) && l < Size(n, t) && NotAfter(s, i, t, l)
      ==> g !in n.run[t].around[l].sequencersReady
  }

  /** A cycle that is followed goes on until a SnapshotEnd, as long as all frames are accepted. */
  lemma {:induction false} StaysFollowing(n: Net, s: nat, i: nat, k: nat, j: nat)
    requires Arrivals(n) && IsMoment(n, s, i) && IsMoment(n, k, j) && NotAfter(s, i, k, j)
    requires Following(n, s, i) && Followed(n, k, k - s) && NoEndSince(n, s, i, k, j)
    ensures Following(n, k, j)
    decreases k, j
  {
    hide Accepted;
    if s == k && i == j {
    } else if j > 0 {
      assert Precedes(k, j - 1, k, j) && NotAfter(s, i, k, j - 1);
      assert forall t: nat, l: nat :: Precedes(t, l, k, j - 1) ==> Precedes(t, l, k, j);
      StaysFollowing(n, s, i, k, j - 1);
    } else {
      FollowedNeedsThePrevious(n, k, k - s);
      FollowedStep(n, k, k - s);
      var l, e := k - 1, Size(n, k - 1);
      assert forall t: nat, m: nat :: Precedes(t, m, l, e) ==> Precedes(t, m, k, 0);
      StaysFollowing(n, s, i, k - 1, Size(n, k - 1));
    }
  }

  /** At message `i` of arrival `s` a cycle starts, or is being followed. */
  ghost predicate InCycle(n: Net, s: nat, i: nat)
    requires Arrivals(n) && IsMoment(n, s, i)
  {
    (i < Size(n, s) && MessageAt(n, s, i).Start?) || StartedBefore(n, s, i)
  }

  lemma CycleIsFollowed(n: Net, s: nat, i: nat, k: nat, j: nat)
    requires Fair(n) && IsMoment(n, s, i) && IsMoment(n, k, j) && Precedes(s, i, k, j)
    requires InCycle(n, s, i) && Followed(n, k, k - s) && NoEndSince(n, s, i, k, j)
    ensures Following(n, k, j)
  {
    hide Accepted, Legal, NoUnnoticedGap, StartedBefore, Following;
    assert k - (k - s) == s && Accepted(n, s);
    FollowingIff(n, s, i);
    if StartedBefore(n, s, i) {
      StaysFollowing(n, s, i, k, j);
    } else {
      FollowingAfterStart(n, s, i);
      assert forall t: nat, l: nat :: NotAfter(s, i + 1, t, l) ==> NotAfter(s, i, t, l);
      StaysFollowing(n, s, i + 1, k, j);
    }
  }

  lemma FollowingAfterStart(n: Net, s: nat, i: nat)
    requires Arrivals(n) && s < |n.run| && i < Size(n, s) && MessageAt(n, s, i).Start?
    ensures Following(n, s, i + 1)
  {
  }

  lemma CycleTakes(n: Net, s: nat, i: nat, t: nat, l: nat, k: nat, j: nat, g: uint32)
    requires Fair(n) && IsMoment(n, s, i) && IsMoment(n, k, j) && NotAfter(s, i, k, j)
    requires InCycle(n, s, i) && Followed(n, k, k - s) && NoEndSince(n, s, i, k, j)
    requires Served(TableBefore(n, s, i), g) && IdleSince(n, s, i, k, j, g)
    requires Precedes(t, l, k, j) && l < Size(n, t) && NotAfter(s, i, t, l)
    ensures TakesAll(n, Snapshots, t, l, g)
  {
    hide Accepted, Legal, NoUnnoticedGap, Learn, StartedBefore, Following;
    FollowedPart(n, s, t, k);
    assert k - (k - s) == s && Accepted(n, s);
    if s != t || i != l {
      assert forall u: nat, m: nat :: Precedes(u, m, t, l) ==> Precedes(u, m, k, j);
      CycleIsFollowed(n, s, i, t, l);
    } else {
      FollowingIff(n, s, i);
    }
    TablesExtend(n, t, l, s, i);
    LearnExtends(TableBefore(n, t, l), MessageAt(n, t, l), n.run[t].around[l]);
    ExtendsOn(TableBefore(n, s, i), TableBefore(n, t, l), TableAt(n, t, l));
  }

  /**
   Snapshot completeness, all books. From message `i` of the accepted arrival `s` on, at which a cycle
   starts or is followed, the packets come back to back up to arrival `k` and no SnapshotEnd comes. There
   the instrument is served and no book of it unfinished, and its sequencer stays not ready. Then, whatever
   happened on the channel before, the log grows by one whole call for every non-empty book about the
   instrument that is finished meanwhile, in order, and by nothing else about it.
   */
  lemma {:induction false} SnapshotCompleteness(n: Net, s: nat, i: nat, k: nat, j: nat, g: uint32)
    requires Fair(n) && Accepted(n, s) && BackToBack(n, s, k)
    requires IsMoment(n, s, i) && IsMoment(n, k, j) && NotAfter(s, i, k, j)
    requires InCycle(n, s, i) && NoEndSince(n, s, i, k, j)
    requires !OpenAbout(n, s, i, g) && Served(TableBefore(n, s, i), g) && IdleSince(n, s, i, k, j, g)
    ensures NotAfter(Index(n, s), i, Index(n, k), j)
    ensures CallsOn(At(n, Snapshots, k, j).calls, g)
         == CallsOn(At(n, Snapshots, s, i).calls, g)
            + WholeCalls(Snapshots, TableBefore(n, s, i), BooksBetween(n, s, i, k, j), g)
  {
    hide TakesAll, Accepted, Legal, NoUnnoticedGap, CallsBefore, WholeCalls, CallsOn, IdleSince, NoEndSince, InCycle;
    hide OpenAbout, Step;
    BackToBackIsFollowed(n, s, k);
    forall t: nat, l: nat | Precedes(t, l, k, j) && l < Size(n, t) && NotAfter(s, i, t, l)
      ensures TakesAll(n, Snapshots, t, l, g)
    {
      CycleTakes(n, s, i, t, l, k, j, g);
    }
    StretchHandsOver(n, Snapshots, s, i, k, j, g);
    assert k - 0 == k && Accepted(n, k);
    LogIsExact(n, Snapshots, s, i);
    LogIsExact(n, Snapshots, k, j);
  }

  /** Right behind a SnapshotStart no book is unfinished. */
  lemma NothingOpenAtStart(n: Net, s: nat, i: nat, g: uint32)
    requires Fair(n) && s < |n.run| && i < Size(n, s) && MessageAt(n, s, i).Start?
    ensures !OpenAbout(n, s, i, g) && !OpenAbout(n, s, i + 1, g)
  {
    LegalHere(n, s, i);
  }

  /**
   While a cycle is followed, finishing a book of a served instrument hands over the whole of it iff every
   fragment with levels came while its instrument was served and its sequencer not ready.
   */
  lemma {:induction false} WholeBookIff(n: Net, k: nat, j: nat)
    requires Fair(n) && k < |n.run| && Accepted(n, k) && j < Size(n, k) && Ends(n.packets, Index(n, k), j)
    requires ServedAt(n, k, j) && StartedBefore(n, k, j)
    ensures |PlacesOf(n.packets, Index(n, k), j)| == |BookAt(n, k, j)|
    ensures var book, places := BookAt(n, k, j), PlacesOf(n.packets, Index(n, k), j);
            CallAt(n, Snapshots, k, j) == WholeCall(Snapshots, TableAt(n, k, j), book)
            <==> forall x: nat :: x < |book| ==> book[x].levels == [] || CameUsable(n, k, places[x])
  {
    hide CallAt, FollowedSince, CameUsable, AllInHand, Accepted, WholeCall, StartedAt, Legal, NoUnnoticedGap, Following;
    FollowingIff(n, k, j);
    PlacesOfBook(n, k, j);
    BookPlacesAreFollowed(n, k, j);
    WholeIffAllInHand(n, Snapshots, k, j);
    AllInHandIsUsable(n, k, BookAt(n, k, j), PlacesOf(n.packets, Index(n, k), j));
  }

  /** Each fragment of the book that message `j` of arrival `k` finishes came while its sequencer was not ready. */
  predicate IdleAtFragments(n: Net, k: nat, j: nat)
    requires Arrivals(n) && k < |n.run| && j < Size(n, k) && Ends(n.packets, Index(n, k), j)
  {
    var places := PlacesOf(n.packets, Index(n, k), j);
    forall x: nat :: x < |places| && CameServed(n, k, places[x])
      ==> IdleAt(n, k - (Index(n, k) - places[x].packet), places[x].message)
  }

  /**
   Snapshot completeness, one book. A SnapshotStart is accepted and the packets come back to back up to
   the book's last fragment, with no SnapshotEnd; the instrument is served when the book's first fragment
   comes, be it defined right in front of it, and its sequencer is not ready at each fragment. Then the
   book's last message adds exactly the whole book to the log.
   */
  lemma {:induction false} BookIsHandedOver(n: Net, s: nat, i: nat, k: nat, j: nat)
    requires Fair(n) && Accepted(n, s) && BackToBack(n, s, k)
    requires i < Size(n, s) && MessageAt(n, s, i).Start? && IsMoment(n, k, j) && Precedes(s, i, k, j)
    requires NoEndSince(n, s, i, k, j)
    requires j < Size(n, k) && Ends(n.packets, Index(n, k), j)
    requires CameServed(n, k, PlacesOf(n.packets, Index(n, k), j)[0]) && IdleAtFragments(n, k, j)
    ensures At(n, Snapshots, k, j + 1).calls
         == At(n, Snapshots, k, j).calls + WholeCall(Snapshots, TableAt(n, k, j), BookAt(n, k, j))
  {
    hide CameServed, CameUsable, Accepted, Legal, NoUnnoticedGap, StartedBefore, Following, Step, CallAt, WholeCall, NoEndSince, IdleAtFragments;
    BackToBackIsFollowed(n, s, k);
    assert k - 0 == k && Accepted(n, k);
    CycleIsFollowed(n, s, i, k, j);
    FollowingIff(n, k, j);
    PlacesOfBook(n, k, j);
    var places := PlacesOf(n.packets, Index(n, k), j);
    forall x: nat | x < |places|
      ensures CameServed(n, k, places[x]) && CameUsable(n, k, places[x])
    {
      PlacesInOrder(n, k, j, 0, x);
      LaterIsServed(n, k, places[0], places[x]);
      ServedAndIdle(n, k, j, x);
    }
    assert places[|places| - 1] == Place(Index(n, k), j);
    LastIsServed(n, k, j);
    WholeBookIff(n, k, j);
    LogGrows(n, Snapshots, k, j);
  }

  lemma ServedAndIdle(n: Net, k: nat, j: nat, x: nat)
    requires Arrivals(n) && k < |n.run| && j < Size(n, k) && Ends(n.packets, Index(n, k), j) && IdleAtFragments(n, k, j)
    requires x < |PlacesOf(n.packets, Index(n, k), j)| && CameServed(n, k, PlacesOf(n.packets, Index(n, k), j)[x])
    ensures CameUsable(n, k, PlacesOf(n.packets, Index(n, k), j)[x])
  {
    hide Accepted, Following, ServedAt;
  }

  // Twice

  /** Some fragment with levels came while its instrument was served and its sequencer not ready. */
  predicate SomeCameUsable(n: Net, k: nat, book: Book, places: seq<Place>)
    requires Arrivals(n) && k < |n.run| && |places| == |book|
  {
    exists x: nat :: x < |book| && book[x].levels != [] && CameUsable(n, k, places[x])
  }

  /**
   Message `j` of arrival `k` ends a book of a served instrument while a cycle is followed, and some
   fragment of it with levels came while its instrument was served and its sequencer not ready.
   */
  ghost predicate BookIsUsable(n: Net, k: nat, j: nat)
    requires Arrivals(n)
  {
    && k < |n.run| && j < Size(n, k) && Ends(n.packets, Index(n, k), j)
    && ServedAt(n, k, j) && StartedBefore(n, k, j)
    && |PlacesOf(n.packets, Index(n, k), j)| == |BookAt(n, k, j)|
    && SomeCameUsable(n, k, BookAt(n, k, j), PlacesOf(n.packets, Index(n, k), j))
  }

  lemma SomeInHandIsUsable(n: Net, k: nat, book: Book, places: seq<Place>)
    requires Arrivals(n) && k < |n.run| && |places| == |book|
    requires forall x: nat :: x < |places| ==> FollowedSince(n, k, places[x])
    ensures SomeInHand(n, Snapshots, k, book, places) <==> SomeCameUsable(n, k, book, places)
  {
    hide InHand, CameUsable, FollowedSince;
    forall x: nat | x < |places|
      ensures InHand(n, Snapshots, k, places[x]) <==> CameUsable(n, k, places[x])
    {
      InHandIsUsable(n, k, places[x]);
    }
  }

  /** Exactly when an accepted message makes a call. */
  lemma {:induction false} SnapshotCallIff(n: Net, k: nat, j: nat)
    requires Fair(n) && k < |n.run| && Accepted(n, k) && j < Size(n, k)
    ensures CallAt(n, Snapshots, k, j) != [] <==> BookIsUsable(n, k, j)
  {
    hide FollowedSince, CameUsable, SomeInHand, SomeCameUsable, Accepted, StartedAt, Legal, NoUnnoticedGap, Following, HeldOf, Scaled;
    if Ends(n.packets, Index(n, k), j) {
      PlacesOfBook(n, k, j);
      SomethingHeld(n, Snapshots, k, BookAt(n, k, j), PlacesOf(n.packets, Index(n, k), j));
      if CallAt(n, Snapshots, k, j) != [] {
        CallsNeedACycle(n, k, j, CallAt(n, Snapshots, k, j)[0]);
      }
      FollowingIff(n, k, j);
      if Following(n, k, j) {
        BookPlacesAreFollowed(n, k, j);
        SomeInHandIsUsable(n, k, BookAt(n, k, j), PlacesOf(n.packets, Index(n, k), j));
      }
    }
  }

  /** The packet of arrival `s` comes again at `t`, and its message `j` ends a usable book both times. */
  ghost predicate BookComesAgain(n: Net, s: nat, t: nat, j: nat)
    requires Arrivals(n)
  {
    ComesAgain(n, s, t) && BookIsUsable(n, s, j) && BookIsUsable(n, t, j)
  }

  lemma {:induction false} BookComesAgainIff(n: Net, s: nat, t: nat, j: nat)
    requires Fair(n)
    ensures CallsAgain(n, Snapshots, s, t, j) <==> BookComesAgain(n, s, t, j)
  {
    hide CallAt, BookIsUsable, Accepted, Legal, NoUnnoticedGap;
    if ComesAgain(n, s, t) {
      NextIsAccepted(n, t);
      if j < Size(n, s) {
        SnapshotCallIff(n, s, j);
        SnapshotCallIff(n, t, j);
      } else {
        UsableIsInside(n, s, j);
      }
    }
  }

  lemma UsableIsInside(n: Net, k: nat, j: nat)
    requires Arrivals(n) && k < |n.run|
    ensures BookIsUsable(n, k, j) ==> j < Size(n, k)
  {
  }

  /**
   Over every run two calls name the same book iff the packet of an accepted arrival comes again directly
   behind its predecessor in the stream, and both times it ended a book of a served instrument within a
   followed cycle, some fragment with levels having come while the sequencer was not ready.
   */
  lemma {:induction false} SnapshotsNameTwiceIff(n: Net)
    requires Fair(n)
    ensures NamesTwice(n, Snapshots) <==> exists s: nat, t: nat, j: nat :: BookComesAgain(n, s, t, j)
  {
    hide CallsAgain, BookComesAgain, NamesTwice, Legal, NoUnnoticedGap;
    NamesTwiceIff(n, Snapshots);
    if s: nat, t: nat, j: nat :| CallsAgain(n, Snapshots, s, t, j) {
      BookComesAgainIff(n, s, t, j);
    }
    if s: nat, t: nat, j: nat :| BookComesAgain(n, s, t, j) {
      BookComesAgainIff(n, s, t, j);
    }
  }

  // Why the start matters

  lemma StartThere(r: Receiver)
    requires r.table == map[] || r.table == KNOWN.defined
    ensures Step(Snapshots, r, Start, KNOWN) == r.(channel := r.channel.(ready := true), table := KNOWN.defined)
  {
    KnownStaysKnown();
  }

  /** One bid while a cycle is followed. */
  lemma BidThere(r: Receiver, price: real, isLast: bool, around: Surroundings)
    requires r.table == KNOWN.defined && around.defined == KNOWN.defined && r.channel.ready
    requires r.channel.instrumentId == 0 || r.channel.instrumentId == 7
    ensures var bids := if 7 in around.sequencersReady then r.channel.bids else r.channel.bids + [MBPUpdate(price, 1.0)];
            Step(Snapshots, r, Levels(OneBid(price, isLast)), around)
            == if isLast then
                 r.(channel := WithoutBook(r.channel),
                    calls := r.calls + if bids == [] && r.channel.asks == [] then [] else [SnapshotCall(7, 5, bids, r.channel.asks)])
               else r.(channel := r.channel.(instrumentId := 7, bids := bids))
  {
    BidIsScaled(r.channel, price, isLast);
    KnownStaysKnown();
    assert r.calls + [] == r.calls;
  }

  const THREE_PACKETS: seq<Packet> :=
    [[Start, Levels(OneBid(1.0, false))], [Levels(OneBid(2.0, false))], [Levels(OneBid(3.0, true))]]

  /** The first number is 1, and the second packet is lost. */
  const LOSSY := Net(THREE_PACKETS, 1, [Arrival(0, [KNOWN, KNOWN]), Arrival(2, [KNOWN])])

  lemma ThreePacketsAreOneBook()
    ensures Legal(THREE_PACKETS)
    ensures AllPublished(THREE_PACKETS) == [[OneBid(1.0, false), OneBid(2.0, false), OneBid(3.0, true)]]
  {
    var p := THREE_PACKETS;
    var a, b, c := OneBid(1.0, false), OneBid(2.0, false), OneBid(3.0, true);
    assert OpenBefore(p, 0, 0) == [] && OpenBefore(p, 0, 1) == [] && OpenBefore(p, 0, 2) == [] + [a] == [a];
    assert OpenBefore(p, 1, 0) == [a] && OpenBefore(p, 1, 1) == [a] + [b] == [a, b];
    assert OpenBefore(p, 2, 0) == [a, b];
    assert Published(p, 0, 0) == [] && Published(p, 0, 1) == [] && Published(p, 0, 2) == [];
    assert Published(p, 1, 0) == [] && Published(p, 1, 1) == [];
    assert Published(p, 2, 0) == [] && Published(p, 2, 1) == [] + [[a, b] + [c]];
    assert [a, b] + [c] == [a, b, c];
  }

  const PATCHWORK := SnapshotCall(7, 5, [MBPUpdate(1.0, 1.0), MBPUpdate(3.0, 1.0)], [])

  lemma LossyRun()
    ensures Arrivals(LOSSY) && Numbers(LOSSY) == [1, 3]
    ensures Final(LOSSY, Snapshots).calls == [PATCHWORK]
  {
    hide Step, OneBid;
    var n := LOSSY;
    assert Size(n, 0) == 2 && Size(n, 1) == 1;
    AcceptedTwo(n, Snapshots, 0);
    StartThere(Gated(INITIAL, 1));
    BidThere(INITIAL.(channel := ChannelState(1, false, true, 0, [], []), table := KNOWN.defined), 1.0, false, KNOWN);
    assert [] + [MBPUpdate(1.0, 1.0)] == [MBPUpdate(1.0, 1.0)];
    var half := Receiver(ChannelState(1, false, true, 7, [MBPUpdate(1.0, 1.0)], []), KNOWN.defined, [], false);
    assert Before(n, Snapshots, 1) == half;
    AcceptedOne(n, Snapshots, 1);
    BidThere(Gated(half, 3), 3.0, true, KNOWN);
    assert [MBPUpdate(1.0, 1.0)] + [MBPUpdate(3.0, 1.0)] == PATCHWORK.bids;
  }

  /**
   With first number 1 a lost packet can go unnoticed: of three fragments the middle one is lost,
   and the other two are handed over although nobody published them as a book.
   */
  lemma {:induction false} StartAtOneHandsOverAPatchwork()
    ensures Arrivals(LOSSY) && Legal(LOSSY.packets)
    ensures Final(LOSSY, Snapshots).calls == [PATCHWORK]
    ensures forall book, m :: book in AllPublished(LOSSY.packets) && book != [] ==> SnapshotOf(book, m) != PATCHWORK
  {
    LossyRun();
    ThreePacketsAreOneBook();
    forall m: real
      ensures SnapshotOf([OneBid(1.0, false), OneBid(2.0, false), OneBid(3.0, true)], m) != PATCHWORK
    {
      ThreeBids(m);
    }
  }

  lemma ThreeBids(m: real)
    ensures SnapshotOf([OneBid(1.0, false), OneBid(2.0, false), OneBid(3.0, true)], m) != PATCHWORK
  {
    var a, b, c := OneBid(1.0, false), OneBid(2.0, false), OneBid(3.0, true);
    var book := [a, b, c];
    assert book[..2] == [a, b] && [a, b][..1] == [a] && [a][..0] == [];
    assert LevelsOf([a]) == [] + a.levels && LevelsOf([a, b]) == LevelsOf([a]) + b.levels;
    assert |LevelsOf(book)| == 3;
    ScaledCount(LevelsOf(book), m);
  }

  // Why the sequencer must stay as it is

  const BUSY := Surroundings(KNOWN.defined, {7})

  /** The sequencer is ready when the first fragment comes, and reset before the second. */
  const RACE := Net([[Start, Levels(OneBid(1.0, false)), Levels(OneBid(2.0, true))]], 2, [Arrival(0, [KNOWN, BUSY, KNOWN])])

  /** A sequencer that is reset in the middle of a book is given the rest of it as if it were all. */
  lemma {:induction false} ResetInTheMiddleHandsOverTheRest()
    ensures Arrivals(RACE) && GoodStart(Numbers(RACE))
    ensures Final(RACE, Snapshots).calls == [SnapshotCall(7, 5, [MBPUpdate(2.0, 1.0)], [])]
  {
    hide Step, OneBid;
    var n := RACE;
    assert Size(n, 0) == 3 && Numbers(n) == [2];
    AcceptedThree(n, Snapshots, 0);
    StartThere(Gated(INITIAL, 2));
    var r := Receiver(ChannelState(2, true, true, 0, [], []), KNOWN.defined, [], false);
    BidThere(r, 1.0, false, BUSY);
    BidThere(r.(channel := r.channel.(instrumentId := 7)), 2.0, true, KNOWN);
    assert [] + [MBPUpdate(2.0, 1.0)] == [MBPUpdate(2.0, 1.0)];
  }

  // Why going back matters

  /** Two neighbouring packets are replayed. */
  const REPLAY := Net([[Ignored], [Start, Levels(OneBid(1.0, true))]], 2,
                      [Arrival(0, [KNOWN]), Arrival(1, [KNOWN, KNOWN]), Arrival(0, [KNOWN]), Arrival(1, [KNOWN, KNOWN])])

  lemma IgnoredThere(r: Receiver)
    requires r.table == map[] || r.table == KNOWN.defined
    ensures Step(Snapshots, r, Ignored, KNOWN) == r.(table := KNOWN.defined)
  {
    KnownStaysKnown();
  }

  /** The first replayed packet is refused, the second is accepted: its book is handed over twice. */
  lemma {:induction false} ReplayHandsOverTwice()
    ensures Arrivals(REPLAY) && GoodStart(Numbers(REPLAY))
    ensures var c := SnapshotCall(7, 5, [MBPUpdate(1.0, 1.0)], []); Final(REPLAY, Snapshots).calls == [c, c]
  {
    hide Step, OneBid;
    var n, c, k := REPLAY, SnapshotCall(7, 5, [MBPUpdate(1.0, 1.0)], []), KNOWN.defined;
    assert Size(n, 0) == 1 && Size(n, 1) == 2 && Size(n, 2) == 1 && Size(n, 3) == 2 && Numbers(n) == [2, 3, 2, 3];
    assert [] + [MBPUpdate(1.0, 1.0)] == [MBPUpdate(1.0, 1.0)] && [] + [c] == [c] && [c] + [c] == [c, c];
    AcceptedOne(n, Snapshots, 0);
    IgnoredThere(Gated(INITIAL, 2));
    var r1 := Receiver(ChannelState(2, true, false, 0, [], []), k, [], false);
    assert Before(n, Snapshots, 1) == r1;
    AcceptedTwo(n, Snapshots, 1);
    StartThere(Gated(r1, 3));
    BidThere(Receiver(ChannelState(3, true, true, 0, [], []), k, [], false), 1.0, true, KNOWN);
    var r2 := Receiver(ChannelState(3, true, true, 0, [], []), k, [c], false);
    assert Before(n, Snapshots, 2) == r2;
    Refused(n, Snapshots, 2);
    var r3 := Receiver(ChannelState(2, true, false, 0, [], []), k, [c], false);
    assert Before(n, Snapshots, 3) == r3;
    AcceptedTwo(n, Snapshots, 3);
    StartThere(Gated(r3, 3));
    BidThere(Receiver(ChannelState(3, true, true, 0, [], []), k, [c], false), 1.0, true, KNOWN);
  }
}
