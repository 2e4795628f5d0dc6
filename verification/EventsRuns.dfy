/**
 The events receiver (src/roq/deribit/gateway/udp_events.cpp), book changes, end to end: what
 reaches the sequencers when the sender's packets arrive with any loss, duplication and
 reordering. A group of changes is a book of the sender.
 */
module EventsRuns {
  import opened Words
  import opened Channels
  import opened Books
  import opened SharedState
  import opened Network
  import opened Receivers
  import opened Handovers
  import opened OneInstrument

  /** The update that hands over these levels of a group. */
  function UpdateOf(group: Book, levels: seq<Level>, multiplier: real): SequencerCall
    requires group != []
  {
    var last := group[|group| - 1];
    UpdateCall(group[0].instrumentId, last.prevChangeId, last.changeId,
               Scaled(levels, Buy, multiplier), Scaled(levels, Sell, multiplier))
  }

  lemma InHandIsServed(n: Net, k: nat, place: Place)
    requires Arrivals(n) && k < |n.run|
    ensures InHand(n, Events, k, place) <==> CameServed(n, k, place)
  {
    hide Followed, ServedAt;
  }

  /** Everything in hand from position `x` on, nothing before it. */
  predicate InHandFrom(n: Net, k: nat, places: seq<Place>, x: nat)
    requires Arrivals(n) && k < |n.run|
  {
    forall y: nat :: y < |places| ==> (x <= y <==> CameServed(n, k, places[y]))
  }

  lemma {:induction false} TailIsHeld(n: Net, k: nat, group: Book, places: seq<Place>, x: nat)
    requires Arrivals(n) && k < |n.run| && ArePlaces(n, group, places) && x <= |group| && InHandFrom(n, k, places, x)
    ensures HeldOf(n, Events, k, places) == LevelsOf(group[x..])
    decreases |group|
  {
    hide CameServed, InHand;
    if group != [] {
      var m := |group| - 1;
      InHandIsServed(n, k, places[m]);
      assert IsPlaceOf(n.packets, places[m], group[m]) && FragmentAt(n, places[m]) == group[m];
      if x <= m {
        TailIsHeld(n, k, group[..m], places[..m], x);
        assert group[x..][..m - x] == group[..m][x..];
      } else {
        NoneHeld(n, k, places);
      }
    }
  }

  lemma {:induction false} NoneHeld(n: Net, k: nat, places: seq<Place>)
    requires Arrivals(n) && k < |n.run| && InHandFrom(n, k, places, |places|)
    ensures HeldOf(n, Events, k, places) == []
  {
    hide CameServed, InHand;
    if places != [] {
      var m := |places| - 1;
      InHandIsServed(n, k, places[m]);
      NoneHeld(n, k, places[..m]);
    }
  }

  /** From which fragment on a group is in hand at its end. */
  ghost function FirstInHand(n: Net, k: nat, places: seq<Place>, y: nat): (x: nat)
    requires Arrivals(n) && k < |n.run| && y < |places| && CameServed(n, k, places[y])
    ensures x <= y && CameServed(n, k, places[x])
    ensures forall z: nat :: z < x ==> !CameServed(n, k, places[z])
  {
    if z: nat :| z < y && CameServed(n, k, places[z]) then FirstInHand(n, k, places, z) else y
  }

  lemma InHandFromFirst(n: Net, k: nat, j: nat)
    requires Fair(n) && k < |n.run| && Accepted(n, k) && j < Size(n, k) && Ends(n.packets, Index(n, k), j) && ServedAt(n, k, j)
    ensures var places := PlacesOf(n.packets, Index(n, k), j);
            exists x: nat :: x < |places| && InHandFrom(n, k, places, x)
  {
    hide CameServed, Accepted, Legal, NoUnnoticedGap;
    var places := PlacesOf(n.packets, Index(n, k), j);
    CameServedHere(n, k, j);
    var x := FirstInHand(n, k, places, |places| - 1);
    forall y: nat | y < |places|
      ensures x <= y <==> CameServed(n, k, places[y])
    {
      if x <= y {
        PlacesInOrder(n, k, j, x, y);
        LaterIsServed(n, k, places[x], places[y]);
      }
    }
    assert InHandFrom(n, k, places, x);
  }

  lemma CameServedHere(n: Net, k: nat, j: nat)
    requires Arrivals(n) && k < |n.run| && j < Size(n, k) && MessageAt(n, k, j).Levels? && Accepted(n, k) && ServedAt(n, k, j)
    ensures CameServed(n, k, Place(Index(n, k), j))
  {
    assert Followed(n, k, 0);
  }

  /**
   `c` was made by message `j` of arrival `k`, which finished a published group of a served
   instrument. It hands over the group's fragments from position `x` on: those, and only those,
   since whose frame every frame was accepted, with the instrument served.
   */
  ghost predicate TailMadeAt(n: Net, k: nat, j: nat, x: nat, c: SequencerCall)
    requires Arrivals(n)
  {
    && MadeAt(n, Events, k, j, c) && ServedAt(n, k, j)
    && var group, places := BookAt(n, k, j), PlacesOf(n.packets, Index(n, k), j);
       && group in AllPublished(n.packets) && WholeBook(group) && |places| == |group|
       && x < |group|
       && c == UpdateOf(group, LevelsOf(group[x..]), MultiplierAt(n, k, j))
       && c.UpdateCall? && group[0].instrumentId in TableAt(n, k, j)
       && HoldsLevels(c, group[|group| - 1], LevelsOf(group[x..]), TableAt(n, k, j)[group[0].instrumentId].multiplier)
       && InHandFrom(n, k, places, x)
  }

  lemma {:induction false} CallIsTail(n: Net, k: nat, j: nat, c: SequencerCall)
    requires Fair(n) && MadeAt(n, Events, k, j, c)
    ensures exists x: nat :: TailMadeAt(n, k, j, x, c)
  {
    hide InHandFrom, CameServed, Accepted, WholeBook, HeldOf, LevelsOf, AllPublished, HoldsLevels, Scaled;
    hide Legal, NoUnnoticedGap, TableAt, PlacesBefore, OpenBefore;
    var p := Index(n, k);
    var group, places := BookAt(n, k, j), PlacesOf(n.packets, p, j);
    BookEndingAtIsWhole(n.packets, p, j);
    BookIsPublished(n.packets, p, j);
    PlacesOfBook(n, k, j);
    WholeIsSomething(group);
    InHandFromFirst(n, k, j);
    var x: nat :| x < |places| && InHandFrom(n, k, places, x);
    TailIsHeld(n, k, group, places, x);
    CallHoldsLevels(n, Events, k, j, c);
    assert TailMadeAt(n, k, j, x, c);
  }

  lemma WholeIsSomething(book: Book)
    requires WholeBook(book)
    ensures book != [] && forall f :: f in book ==> f.instrumentId == book[0].instrumentId
  {
  }

  /**
   Events suffix theorem. Whatever was lost, repeated or reordered, each update is a contiguous tail
   of one published group of changes, ending with its last fragment, scaled and in order per side;
   which tail is said exactly.
   */
  lemma {:induction false} EventsHandOverTails(n: Net, c: SequencerCall)
    requires Fair(n) && c in Final(n, Events).calls
    ensures exists k: nat, j: nat, x: nat :: TailMadeAt(n, k, j, x, c)
  {
    hide TailMadeAt, MadeAt, Final, Moments, Legal, NoUnnoticedGap;
    CallsComeFromBooks(n, Events);
    var y: nat :| y < |Final(n, Events).calls| && Final(n, Events).calls[y] == c;
    var m := Moments(n, Events)[y];
    CallIsTail(n, m.arrival, m.message, c);
  }

  /**
   Every update hands over all fragments of its group iff every frame from the group's first to its
   last fragment was accepted and the instrument was served when the first came.
   */
  lemma {:induction false} WholeGroupIff(n: Net, k: nat, j: nat, c: SequencerCall)
    requires Fair(n) && MadeAt(n, Events, k, j, c)
    ensures exists x: nat :: TailMadeAt(n, k, j, x, c)
                             && (x == 0 <==> CameServed(n, k, PlacesOf(n.packets, Index(n, k), j)[0]))
  {
    hide CameServed, Accepted, Legal, NoUnnoticedGap, AllPublished, LevelsOf, TableAt;
    CallIsTail(n, k, j, c);
    var x: nat :| TailMadeAt(n, k, j, x, c);
  }

  /** As far as levels go, the same holds of the first fragment that has any. */
  lemma {:induction false} WholeUpdateIff(n: Net, k: nat, j: nat, c: SequencerCall, y: nat)
    requires Fair(n) && MadeAt(n, Events, k, j, c)
    requires y < |BookAt(n, k, j)| && BookAt(n, k, j)[y].levels != []
    requires forall z: nat :: z < y ==> BookAt(n, k, j)[z].levels == []
    ensures ServedAt(n, k, j) && y < |PlacesOf(n.packets, Index(n, k), j)|
    ensures var group := BookAt(n, k, j);
            c == UpdateOf(group, LevelsOf(group), MultiplierAt(n, k, j))
            <==> CameServed(n, k, PlacesOf(n.packets, Index(n, k), j)[y])
  {
    hide CameServed, Accepted, Legal, NoUnnoticedGap, CallAt, AllPublished, LevelsOf, WholeBook, TableAt;
    CallIsTail(n, k, j, c);
    var x: nat :| TailMadeAt(n, k, j, x, c);
    var group := BookAt(n, k, j);
    var m := MultiplierAt(n, k, j);
    TailLevels(group, x);
    if x <= y {
      NoLevelsBefore(group, x);
      assert [] + LevelsOf(group[x..]) == LevelsOf(group[x..]);
    } else {
      SomeLevelsBefore(group, x, y);
    }
    if c == UpdateOf(group, LevelsOf(group), m) {
      ScaledCount(LevelsOf(group[x..]), m);
      ScaledCount(LevelsOf(group), m);
    }
  }

  lemma {:induction false} TailLevels(group: Book, x: nat)
    requires x <= |group|
    ensures LevelsOf(group) == LevelsOf(group[..x]) + LevelsOf(group[x..])
    decreases |group|
  {
    if x == |group| {
      assert group[..x] == group;
    } else {
      var m := |group| - 1;
      TailLevels(group[..m], x);
      assert group[..m][..x] == group[..x] && group[..m][x..] == group[x..][..m - x];
      Assoc(LevelsOf(group[..x]), LevelsOf(group[..m][x..]), group[m].levels);
    }
  }

  lemma {:induction false} NoLevelsBefore(group: Book, x: nat)
    requires x <= |group| && forall z: nat :: z < x ==> group[z].levels == []
    ensures LevelsOf(group[..x]) == []
  {
    if x > 0 {
      NoLevelsBefore(group, x - 1);
      assert group[..x][..x - 1] == group[..x - 1];
    }
  }

  lemma {:induction false} SomeLevelsBefore(group: Book, x: nat, y: nat)
    requires y < x <= |group| && group[y].levels != []
    ensures LevelsOf(group[..x]) != []
  {
    assert group[..x][..x - 1] == group[..x - 1];
    if y < x - 1 {
      SomeLevelsBefore(group, x - 1, y);
    }
  }

  /**
   Events completeness, one group. The packets from that of the group's first fragment, accepted at
   arrival `s`, to that of its last come back to back, and the instrument is served when the first
   comes. Then the group's last message adds exactly the whole group to the log.
   */
  lemma {:induction false} GroupIsHandedOver(n: Net, s: nat, k: nat, j: nat)
    requires Fair(n) && Accepted(n, s) && BackToBack(n, s, k) && j < Size(n, k) && Ends(n.packets, Index(n, k), j)
    requires var first := PlacesOf(n.packets, Index(n, k), j)[0];
             IsPlace(n, first) && first.packet == Index(n, s) && ServedAt(n, s, first.message)
    ensures ServedAt(n, k, j)
    ensures var group := BookAt(n, k, j);
            At(n, Events, k, j + 1).calls
            == At(n, Events, k, j).calls + [UpdateOf(group, LevelsOf(group), MultiplierAt(n, k, j))]
  {
    hide CameServed, InHand, Accepted, Legal, NoUnnoticedGap, LevelsOf, TableAt, HeldOf, WholeBook;
    var p := Index(n, k);
    var group, places := BookAt(n, k, j), PlacesOf(n.packets, p, j);
    BackToBackIsFollowed(n, s, k);
    FirstCameServed(n, s, k, places[0]);
    PlacesOfBook(n, k, j);
    BookEndingAtIsWhole(n.packets, p, j);
    WholeIsSomething(group);
    forall y: nat | y < |places|
      ensures CameServed(n, k, places[y]) && InHand(n, Events, k, places[y])
    {
      PlacesInOrder(n, k, j, 0, y);
      LaterIsServed(n, k, places[0], places[y]);
      InHandIsServed(n, k, places[y]);
    }
    LastIsServed(n, k, j);
    HeldLevels(n, Events, k, group, places);
    assert k - 0 == k && Accepted(n, k);
    LogGrows(n, Events, k, j);
  }

  /**
   Events completeness, all groups. From message `i` of the accepted arrival `s` on the packets come
   back to back up to arrival `k`, and there the instrument is served and no group of it unfinished.
   Then the log grows by one whole call for every group about it that is finished meanwhile, in order,
   and by nothing else about it.
   */
  lemma {:induction false} EventsCompleteness(n: Net, s: nat, i: nat, k: nat, j: nat, g: uint32)
    requires Fair(n) && Accepted(n, s) && BackToBack(n, s, k)
    requires IsMoment(n, s, i) && IsMoment(n, k, j) && NotAfter(s, i, k, j)
    requires !OpenAbout(n, s, i, g) && Served(TableBefore(n, s, i), g)
    ensures NotAfter(Index(n, s), i, Index(n, k), j)
    ensures CallsOn(At(n, Events, k, j).calls, g)
         == CallsOn(At(n, Events, s, i).calls, g)
            + WholeCalls(Events, TableBefore(n, s, i), BooksBetween(n, s, i, k, j), g)
  {
    hide TakesAll, Accepted, Legal, NoUnnoticedGap, CallsBefore, WholeCalls, CallsOn, OpenAbout, Step;
    BackToBackIsFollowed(n, s, k);
    forall t: nat, l: nat | Precedes(t, l, k, j) && l < Size(n, t) && NotAfter(s, i, t, l)
      ensures TakesAll(n, Events, t, l, g)
    {
      StaysServed(n, s, i, t, l, g);
    }
    StretchHandsOver(n, Events, s, i, k, j, g);
    assert k - 0 == k && Accepted(n, k);
    LogIsExact(n, Events, s, i);
    LogIsExact(n, Events, k, j);
  }

  lemma StaysServed(n: Net, s: nat, i: nat, t: nat, l: nat, g: uint32)
    requires Arrivals(n) && Accepted(n, s) && IsMoment(n, s, i) && t < |n.run| && l < Size(n, t) && NotAfter(s, i, t, l)
    requires Served(TableBefore(n, s, i), g)
    ensures TakesAll(n, Events, t, l, g)
  {
    hide Accepted, Learn;
    TablesExtend(n, t, l, s, i);
    LearnExtends(TableBefore(n, t, l), MessageAt(n, t, l), n.run[t].around[l]);
  }

  // Twice

  /** The packet of arrival `s` comes again at `t`; its message `j` ends a group of a served instrument. */
  predicate GroupComesAgain(n: Net, s: nat, t: nat, j: nat)
    requires Arrivals(n)
  {
    ComesAgain(n, s, t) && j < Size(n, s) && Ends(n.packets, Index(n, s), j) && ServedAt(n, s, j)
  }

  lemma GroupComesAgainIff(n: Net, s: nat, t: nat, j: nat)
    requires Arrivals(n)
    ensures CallsAgain(n, Events, s, t, j) <==> GroupComesAgain(n, s, t, j)
  {
    hide Accepted, HeldOf, Learn;
    if GroupComesAgain(n, s, t, j) {
      TablesExtend(n, t, j, s, j + 1);
      LearnExtends(TableBefore(n, s, j), MessageAt(n, s, j), n.run[s].around[j]);
      LearnExtends(TableBefore(n, t, j), MessageAt(n, t, j), n.run[t].around[j]);
      StillServed(TableAt(n, s, j), TableBefore(n, s, j + 1), TableBefore(n, t, j), TableAt(n, t, j),
                  MessageAt(n, s, j).fragment.instrumentId);
    }
  }

  /**
   Over every run two updates name the same group iff the packet of an accepted arrival comes again
   directly behind its predecessor in the stream, and it ended a group of a served instrument.
   */
  lemma {:induction false} EventsNameTwiceIff(n: Net)
    requires Fair(n)
    ensures NamesTwice(n, Events) <==> exists s: nat, t: nat, j: nat :: GroupComesAgain(n, s, t, j)
  {
    hide CallsAgain, GroupComesAgain, NamesTwice, Legal, NoUnnoticedGap;
    NamesTwiceIff(n, Events);
    if s: nat, t: nat, j: nat :| CallsAgain(n, Events, s, t, j) {
      GroupComesAgainIff(n, s, t, j);
    }
    if s: nat, t: nat, j: nat :| GroupComesAgain(n, s, t, j) {
      GroupComesAgainIff(n, s, t, j);
    }
  }

  // A refused frame does not stop the rest of a group

  lemma BidThere(r: Receiver, price: real, isLast: bool)
    requires r.table == map[] || r.table == KNOWN.defined
    requires r.channel.instrumentId == 0 || r.channel.instrumentId == 7
    ensures var bids := r.channel.bids + [MBPUpdate(price, 1.0)];
            Step(Events, r, Levels(OneBid(price, isLast)), KNOWN)
            == if isLast then
                 r.(channel := WithoutBook(r.channel), table := KNOWN.defined,
                    calls := r.calls + [UpdateCall(7, 4, 5, bids, r.channel.asks)])
               else r.(channel := r.channel.(instrumentId := 7, bids := bids), table := KNOWN.defined)
  {
    BidIsScaled(r.channel, price, isLast);
    KnownStaysKnown();
    assert r.calls + [] == r.calls;
  }

  const TAIL := UpdateCall(7, 4, 5, [MBPUpdate(2.0, 1.0)], [])

  /** The first packet arrives twice. */
  const REPEAT := Net([[Levels(OneBid(1.0, false))], [Levels(OneBid(2.0, true))]], 10,
                      [Arrival(0, [KNOWN]), Arrival(0, [KNOWN]), Arrival(1, [KNOWN])])

  /**
   The group has two fragments and none of them is lost, but the repeated packet resets the
   channel: only the last fragment is handed over.
   */
  lemma {:induction false} RepeatLetsTheTailThrough()
    ensures Arrivals(REPEAT) && GoodStart(Numbers(REPEAT))
    ensures Final(REPEAT, Events).calls == [TAIL]
  {
    hide Step, OneBid;
    var n, k := REPEAT, KNOWN.defined;
    assert Size(n, 0) == 1 && Size(n, 1) == 1 && Size(n, 2) == 1 && Numbers(n) == [10, 10, 11];
    assert [] + [MBPUpdate(1.0, 1.0)] == [MBPUpdate(1.0, 1.0)] && [] + [MBPUpdate(2.0, 1.0)] == [MBPUpdate(2.0, 1.0)];
    AcceptedOne(n, Events, 0);
    BidThere(Gated(INITIAL, 10), 1.0, false);
    var r1 := Receiver(ChannelState(10, true, false, 7, [MBPUpdate(1.0, 1.0)], []), k, [], false);
    assert Before(n, Events, 1) == r1;
    Refused(n, Events, 1);
    var r2 := Receiver(ChannelState(10, true, false, 0, [], []), k, [], false);
    assert Before(n, Events, 2) == r2;
    AcceptedOne(n, Events, 2);
    BidThere(Gated(r2, 11), 2.0, true);
    assert [] + [TAIL] == [TAIL];
  }

  // Why going back matters

  /** Two neighbouring packets are replayed. */
  const REPLAY := Net([[Levels(OneBid(1.0, true))], [Levels(OneBid(2.0, true))]], 10,
                      [Arrival(0, [KNOWN]), Arrival(1, [KNOWN]), Arrival(0, [KNOWN]), Arrival(1, [KNOWN])])

  /** The first replayed packet is refused, the second is accepted: its group is handed over twice. */
  lemma {:induction false} ReplayHandsOverTwice()
    ensures Arrivals(REPLAY) && GoodStart(Numbers(REPLAY))
    ensures Final(REPLAY, Events).calls == [UpdateCall(7, 4, 5, [MBPUpdate(1.0, 1.0)], []), TAIL, TAIL]
  {
    hide Step, OneBid;
    var n, k, c := REPLAY, KNOWN.defined, UpdateCall(7, 4, 5, [MBPUpdate(1.0, 1.0)], []);
    assert Size(n, 0) == 1 && Size(n, 1) == 1 && Size(n, 2) == 1 && Size(n, 3) == 1 && Numbers(n) == [10, 11, 10, 11];
    assert [] + [MBPUpdate(1.0, 1.0)] == [MBPUpdate(1.0, 1.0)] && [] + [MBPUpdate(2.0, 1.0)] == [MBPUpdate(2.0, 1.0)];
    assert [] + [c] == [c] && [c] + [TAIL] == [c, TAIL] && [c, TAIL] + [TAIL] == [c, TAIL, TAIL];
    AcceptedOne(n, Events, 0);
    BidThere(Gated(INITIAL, 10), 1.0, true);
    var r1 := Receiver(ChannelState(10, true, false, 0, [], []), k, [c], false);
    assert Before(n, Events, 1) == r1;
    AcceptedOne(n, Events, 1);
    BidThere(Gated(r1, 11), 2.0, true);
    var r2 := Receiver(ChannelState(11, true, false, 0, [], []), k, [c, TAIL], false);
    assert Before(n, Events, 2) == r2;
    Refused(n, Events, 2);
    var r3 := Receiver(ChannelState(10, true, false, 0, [], []), k, [c, TAIL], false);
    assert Before(n, Events, 3) == r3;
    AcceptedOne(n, Events, 3);
    BidThere(Gated(r3, 11), 2.0, true);
  }
}
