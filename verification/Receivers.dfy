/**
 One channel of either multicast receiver over a whole run, and exactly which sequencer calls
 it makes: every message's calls, said in terms of the stream and the arrivals alone.
 */
module Receivers {
  import opened Words
  import opened Channels
  import opened Books
  import opened SharedState
  import opened Network
  import UdpSnapshot
  import UdpEvents

  datatype Kind = Snapshots | Events

  /** `mixed` records a failed debug assertion on the buffered instrument. */
  datatype Receiver = Receiver(channel: ChannelState, table: Table, calls: seq<SequencerCall>, mixed: bool)

  const INITIAL := Receiver(FRESH, map[], [], false)

  function OnFragment(kind: Kind, s: ChannelState, table: Table, f: Fragment, sequencerReady: bool): Effect {
    match kind
    case Snapshots => UdpSnapshot.OnFragment(s, table, f, sequencerReady)
    case Events => UdpEvents.OnFragment(s, table, f)
  }

  /** The debug assertion on the buffered instrument would fail. */
  predicate Mixes(s: ChannelState, table: Table, f: Fragment) {
    Served(table, f.instrumentId) && !f.isLast && s.instrumentId != 0 && s.instrumentId != f.instrumentId
  }

  function TakeFragment(kind: Kind, r: Receiver, f: Fragment, sequencerReady: bool): Receiver {
    var effect := OnFragment(kind, r.channel, r.table, f, sequencerReady);
    Receiver(effect.channel, r.table, r.calls + effect.calls, r.mixed || Mixes(r.channel, r.table, f))
  }

  /** Start and End would end the process of the events receiver. */
  function Step(kind: Kind, r: Receiver, m: Message, around: Surroundings): Receiver {
    var g := r.(table := around.defined + r.table);
    match m
    case Start => if kind.Snapshots? then g.(channel := g.channel.(ready := true)) else g
    case End => if kind.Snapshots? then g.(channel := g.channel.(ready := false)) else g
    case Define(id, info) => g.(table := map[id := info] + g.table)
    case Levels(f) => TakeFragment(kind, g, f, f.instrumentId in around.sequencersReady)
    case Ignored => g
  }

  /** Before arrival `k`. */
  function Before(n: Net, kind: Kind, k: nat): Receiver
    requires Arrivals(n) && k <= |n.run|
    decreases k, 0, 0
  {
    if k == 0 then INITIAL
    else At(n, kind, k - 1, if Accepts(Before(n, kind, k - 1).channel, Numbers(n)[k - 1]) then Size(n, k - 1) else 0)
  }

  /** After the frame header of arrival `k` and its first `j` messages. */
  function At(n: Net, kind: Kind, k: nat, j: nat): Receiver
    requires Arrivals(n) && IsMoment(n, k, j)
    decreases k, 1, j
  {
    if j > 0 then Step(kind, At(n, kind, k, j - 1), MessageAt(n, k, j - 1), n.run[k].around[j - 1])
    else var r := Before(n, kind, k); r.(channel := Gate(r.channel, Numbers(n)[k]))
  }

  function Final(n: Net, kind: Kind): Receiver
    requires Arrivals(n)
  {
    Before(n, kind, |n.run|)
  }

  // What the buffers should hold

  predicate IsPlace(n: Net, place: Place) {
    && place.packet < |n.packets| && place.message < |n.packets[place.packet]|
    && n.packets[place.packet][place.message].Levels?
  }

  function FragmentAt(n: Net, place: Place): Fragment
    requires IsPlace(n, place)
  {
    n.packets[place.packet][place.message].fragment
  }

  /** The fragment in message `j` of arrival `k` is put into the buffers. */
  predicate Took(n: Net, kind: Kind, k: nat, j: nat)
    requires Arrivals(n) && k < |n.run| && j < Size(n, k) && MessageAt(n, k, j).Levels?
  {
    ServedAt(n, k, j) && (kind.Snapshots? ==> Following(n, k, j) && IdleAt(n, k, j))
  }

  /** The fragment at `place` came with a frame since which all were accepted, up to arrival `k`, and it was taken. */
  predicate InHand(n: Net, kind: Kind, k: nat, place: Place)
    requires Arrivals(n) && k < |n.run|
  {
    && IsPlace(n, place) && place.packet <= Index(n, k)
    && Followed(n, k, Index(n, k) - place.packet)
    && var t := k - (Index(n, k) - place.packet);
       Index(n, t) == place.packet && Took(n, kind, t, place.message)
  }

  /** The levels at those places that are in hand. */
  function HeldOf(n: Net, kind: Kind, k: nat, places: seq<Place>): seq<Level>
    requires Arrivals(n) && k < |n.run|
  {
    if places == [] then [] else
      var m := |places| - 1;
      HeldOf(n, kind, k, places[..m]) + (if InHand(n, kind, k, places[m]) then FragmentAt(n, places[m]).levels else [])
  }

  /** The call that finishing a book of instrument `f.instrumentId` makes, if these levels of it are held. */
  function CallFor(kind: Kind, table: Table, f: Fragment, held: seq<Level>): seq<SequencerCall> {
    if !Served(table, f.instrumentId) then [] else
      var m := table[f.instrumentId].multiplier;
      match kind
      case Snapshots =>
        if held == [] then [] else [SnapshotCall(f.instrumentId, f.changeId, Scaled(held, Buy, m), Scaled(held, Sell, m))]
      case Events =>
        [UpdateCall(f.instrumentId, f.prevChangeId, f.changeId, Scaled(held, Buy, m), Scaled(held, Sell, m))]
  }

  /** The calls message `j` of the accepted arrival `k` makes. */
  function CallAt(n: Net, kind: Kind, k: nat, j: nat): seq<SequencerCall>
    requires Arrivals(n) && k < |n.run| && j < Size(n, k)
  {
    var p := Index(n, k);
    if Ends(n.packets, p, j)
    then CallFor(kind, TableAt(n, k, j), MessageAt(n, k, j).fragment, HeldOf(n, kind, k, PlacesOf(n.packets, p, j)))
    else []
  }

  /** All calls before message `j` of arrival `k`, in order. */
  function CallsBefore(n: Net, kind: Kind, k: nat, j: nat): seq<SequencerCall>
    requires Arrivals(n) && IsMoment(n, k, j)
    decreases k, j
  {
    if j > 0 then CallsBefore(n, kind, k, j - 1) + CallAt(n, kind, k, j - 1)
    else if k > 0 then CallsBefore(n, kind, k - 1, if Accepted(n, k - 1) then Size(n, k - 1) else 0)
    else []
  }

  /** All calls of the first `k` arrivals. */
  function CallsSoFar(n: Net, kind: Kind, k: nat): seq<SequencerCall>
    requires Arrivals(n) && k <= |n.run|
  {
    if k == 0 then [] else CallsBefore(n, kind, k - 1, if Accepted(n, k - 1) then Size(n, k - 1) else 0)
  }

  function AllCalls(n: Net, kind: Kind): seq<SequencerCall>
    requires Arrivals(n)
  {
    CallsSoFar(n, kind, |n.run|)
  }

  // The channel against what it should hold

  predicate Holds(kind: Kind, s: ChannelState, table: Table, open: Book, held: seq<Level>, following: bool) {
    && PartialBook(open)
    && s.bids == Scaled(held, Buy, MultiplierOf(table, open))
    && s.asks == Scaled(held, Sell, MultiplierOf(table, open))
    && (held != [] ==> open != [] && Served(table, open[0].instrumentId) && (kind.Snapshots? ==> following))
    && (s.instrumentId != 0 ==> open != [] && s.instrumentId == open[0].instrumentId && Served(table, s.instrumentId))
    && (kind.Snapshots? ==> s.ready == following)
  }

  lemma MoreKnown(kind: Kind, s: ChannelState, table: Table, later: Table, open: Book, held: seq<Level>, following: bool)
    requires Holds(kind, s, table, open, held, following) && Extends(table, later)
    ensures Holds(kind, s, later, open, held, following)
  {
  }

  /** A fragment is put into the buffers, or not. */
  predicate Takes(kind: Kind, table: Table, f: Fragment, following: bool, sequencerReady: bool) {
    Served(table, f.instrumentId) && (kind.Snapshots? ==> following && !sequencerReady)
  }

  /** One fragment keeps the buffers right, fails no assertion, and makes the calls it should. */
  lemma {:induction false} TakeHolds(kind: Kind, s: ChannelState, table: Table, open: Book, held: seq<Level>, following: bool, f: Fragment, sequencerReady: bool)
    requires Holds(kind, s, table, open, held, following) && LegalNext(open, Levels(f))
    ensures !Mixes(s, table, f)
    ensures var effect := OnFragment(kind, s, table, f, sequencerReady);
            var held1 := held + if Takes(kind, table, f, following, sequencerReady) then f.levels else [];
            && Holds(kind, effect.channel, table, Advance(open, Levels(f)), if f.isLast then [] else held1, following)
            && effect.calls == if f.isLast then CallFor(kind, table, f, held1) else []
  {
    if Served(table, f.instrumentId) {
      TakeServed(kind, s, table, open, held, following, f, sequencerReady);
    } else {
      TakeUnserved(kind, s, table, open, held, following, f, sequencerReady);
    }
    hide Holds, OnFragment, Takes, CallFor;
  }

  lemma TakeUnserved(kind: Kind, s: ChannelState, table: Table, open: Book, held: seq<Level>, following: bool, f: Fragment, sequencerReady: bool)
    requires Holds(kind, s, table, open, held, following) && LegalNext(open, Levels(f)) && !Served(table, f.instrumentId)
    ensures OnFragment(kind, s, table, f, sequencerReady) == Effect(s, [])
    ensures held == [] && Holds(kind, s, table, Advance(open, Levels(f)), [], following)
  {
    assert Scaled([], Buy, 0.0) == [] && Scaled([], Sell, 0.0) == [];
    hide Scaled;
  }

  /** The state of the buffers once `f` is taken, or left. */
  function Collected(s: ChannelState, levels: seq<Level>, takes: bool, m: real): ChannelState {
    if takes then WithLevels(s, levels, m) else s
  }

  lemma CollectedHolds(kind: Kind, s: ChannelState, table: Table, open: Book, held: seq<Level>, following: bool, f: Fragment, takes: bool)
    requires Holds(kind, s, table, open, held, following) && LegalNext(open, Levels(f)) && Served(table, f.instrumentId)
    ensures var m := table[f.instrumentId].multiplier;
            var held1, c := held + (if takes then f.levels else []), Collected(s, f.levels, takes, m);
            && c == s.(bids := Scaled(held1, Buy, m), asks := Scaled(held1, Sell, m))
            && (c.bids == [] && c.asks == [] <==> held1 == [])
  {
    var m := table[f.instrumentId].multiplier;
    ScaledConcat(held, f.levels, Buy, m);
    ScaledConcat(held, f.levels, Sell, m);
    ScaledCount(held + (if takes then f.levels else []), m);
    assert held + [] == held;
  }

  lemma TakeServed(kind: Kind, s: ChannelState, table: Table, open: Book, held: seq<Level>, following: bool, f: Fragment, sequencerReady: bool)
    requires Holds(kind, s, table, open, held, following) && LegalNext(open, Levels(f)) && Served(table, f.instrumentId)
    ensures !Mixes(s, table, f)
    ensures var effect := OnFragment(kind, s, table, f, sequencerReady);
            var held1 := held + if Takes(kind, table, f, following, sequencerReady) then f.levels else [];
            && Holds(kind, effect.channel, table, Advance(open, Levels(f)), if f.isLast then [] else held1, following)
            && effect.calls == if f.isLast then CallFor(kind, table, f, held1) else []
  {
    CollectedHolds(kind, s, table, open, held, following, f, Takes(kind, table, f, following, sequencerReady));
    assert Scaled([], Buy, 0.0) == [] && Scaled([], Sell, 0.0) == [];
    hide Scaled;
    match kind
    case Snapshots =>
      assert UdpSnapshot.Collect(s, f, table[f.instrumentId].multiplier, sequencerReady)
          == Collected(s, f.levels, Takes(kind, table, f, following, sequencerReady), table[f.instrumentId].multiplier);
    case Events =>
  }

  /** A fragment that is not the last names its instrument on a channel that has none. */
  lemma {:induction false} FragmentNamesInstrument(kind: Kind, s: ChannelState, table: Table, f: Fragment, sequencerReady: bool)
    requires Served(table, f.instrumentId) && !f.isLast
    ensures var t := OnFragment(kind, s, table, f, sequencerReady).channel;
            t.instrumentId == if s.instrumentId == 0 then f.instrumentId else s.instrumentId
  {
  }

  // Acceptance

  lemma StepKeepsControl(kind: Kind, r: Receiver, m: Message, around: Surroundings)
    ensures SameControl(r.channel, Step(kind, r, m, around).channel)
  {
  }

  lemma {:induction false} AtKeepsControl(n: Net, kind: Kind, k: nat, j: nat)
    requires Arrivals(n) && IsMoment(n, k, j)
    ensures SameControl(At(n, kind, k, j).channel, At(n, kind, k, 0).channel)
  {
    hide Step;
    if j > 0 {
      AtKeepsControl(n, kind, k, j - 1);
      StepKeepsControl(kind, At(n, kind, k, j - 1), MessageAt(n, k, j - 1), n.run[k].around[j - 1]);
    }
  }

  /** Both receivers accept the same frames. */
  lemma {:induction false} AcceptsIff(n: Net, kind: Kind, k: nat)
    requires Arrivals(n) && k <= |n.run|
    ensures SameControl(Before(n, kind, k).channel, Heard(Numbers(n)[..k]))
    ensures k < |n.run| ==> (Accepts(Before(n, kind, k).channel, Numbers(n)[k]) <==> Accepted(n, k))
  {
    hide At, Gate;
    if k > 0 {
      AcceptsIff(n, kind, k - 1);
      var s := Before(n, kind, k - 1).channel;
      GateControl(s, Heard(Numbers(n)[..k - 1]), Numbers(n)[k - 1]);
      assert Numbers(n)[..k][..k - 1] == Numbers(n)[..k - 1];
      GatedAtFrame(n, kind, k - 1);
      AtKeepsControl(n, kind, k - 1, if Accepts(s, Numbers(n)[k - 1]) then Size(n, k - 1) else 0);
    }
    if k < |n.run| {
      hide SameControl;
      GateControl(Before(n, kind, k).channel, Heard(Numbers(n)[..k]), Numbers(n)[k]);
    }
  }

  lemma GatedAtFrame(n: Net, kind: Kind, k: nat)
    requires Arrivals(n) && k < |n.run|
    ensures var r := Before(n, kind, k);
            At(n, kind, k, 0) == r.(channel := Gate(r.channel, Numbers(n)[k]))
  {
  }

  /** What the receiver is after an arrival. */
  lemma AfterArrival(n: Net, kind: Kind, k: nat)
    requires Arrivals(n) && k < |n.run|
    ensures Before(n, kind, k + 1) == At(n, kind, k, if Accepted(n, k) then Size(n, k) else 0)
  {
    AcceptsIff(n, kind, k);
  }

  // What is in hand

  lemma InHandNext(n: Net, kind: Kind, k: nat, place: Place)
    requires Arrivals(n) && 0 < k < |n.run| && Accepted(n, k) && Index(n, k - 1) + 1 == Index(n, k)
    requires place.packet < Index(n, k)
    ensures InHand(n, kind, k, place) <==> InHand(n, kind, k - 1, place)
  {
    hide Followed, Accepted, Took;
    FollowedStep(n, k, Index(n, k) - place.packet);
  }

  lemma {:induction false} HeldNext(n: Net, kind: Kind, k: nat, places: seq<Place>)
    requires Arrivals(n) && 0 < k < |n.run| && Accepted(n, k) && Index(n, k - 1) + 1 == Index(n, k)
    requires forall x: nat :: x < |places| ==> places[x].packet < Index(n, k)
    ensures HeldOf(n, kind, k, places) == HeldOf(n, kind, k - 1, places)
  {
    hide InHand, Accepted;
    if places != [] {
      var m := |places| - 1;
      HeldNext(n, kind, k, places[..m]);
      InHandNext(n, kind, k, places[m]);
    }
  }

  lemma NotInHand(n: Net, kind: Kind, k: nat, place: Place)
    requires Arrivals(n) && k < |n.run| && (k > 0 ==> !Accepted(n, k - 1)) && place.packet < Index(n, k)
    ensures !InHand(n, kind, k, place)
  {
    hide Followed, Accepted, Took;
    FollowedNeedsPrevious(n, k, Index(n, k) - place.packet);
  }

  lemma {:induction false} NothingHeld(n: Net, kind: Kind, k: nat, places: seq<Place>)
    requires Arrivals(n) && k < |n.run| && (k > 0 ==> !Accepted(n, k - 1))
    requires forall x: nat :: x < |places| ==> places[x].packet < Index(n, k)
    ensures HeldOf(n, kind, k, places) == []
  {
    hide InHand, Accepted;
    if places != [] {
      var m := |places| - 1;
      NothingHeld(n, kind, k, places[..m]);
      NotInHand(n, kind, k, places[m]);
    }
  }

  /** One more place, of the message at hand. */
  lemma HeldMore(n: Net, kind: Kind, k: nat, j: nat, places: seq<Place>)
    requires Arrivals(n) && k < |n.run| && j < Size(n, k) && MessageAt(n, k, j).Levels? && Accepted(n, k)
    ensures HeldOf(n, kind, k, places + [Place(Index(n, k), j)])
         == HeldOf(n, kind, k, places) + if Took(n, kind, k, j) then MessageAt(n, k, j).fragment.levels else []
  {
    var place := Place(Index(n, k), j);
    assert (places + [place])[..|places|] == places;
    assert Followed(n, k, 0);
    assert InHand(n, kind, k, place) <==> Took(n, kind, k, j);
  }

  // The receiver against the stream

  /** Receiver and sender are in step before message `j` of the accepted arrival `k`. */
  ghost predicate InStep(n: Net, kind: Kind, k: nat, j: nat)
    requires Arrivals(n) && IsMoment(n, k, j)
  {
    var r, p := At(n, kind, k, j), Index(n, k);
    && r.table == TableBefore(n, k, j)
    && r.calls == CallsBefore(n, kind, k, j)
    && !r.mixed
    && Holds(kind, r.channel, r.table, OpenBefore(n.packets, p, j),
             HeldOf(n, kind, k, PlacesBefore(n.packets, p, j)), Following(n, k, j))
  }

  /** Everything one message further. */
  lemma NextMessage(n: Net, kind: Kind, k: nat, j: nat)
    requires Arrivals(n) && k < |n.run| && j < Size(n, k)
    ensures var p, m, around := Index(n, k), MessageAt(n, k, j), n.run[k].around[j];
            && At(n, kind, k, j + 1) == Step(kind, At(n, kind, k, j), m, around)
            && OpenBefore(n.packets, p, j + 1) == Advance(OpenBefore(n.packets, p, j), m)
            && PlacesBefore(n.packets, p, j + 1)
               == (if !m.Levels? then PlacesBefore(n.packets, p, j)
                   else if m.fragment.isLast then [] else PlacesBefore(n.packets, p, j) + [Place(p, j)])
            && TableBefore(n, k, j + 1) == Learn(TableBefore(n, k, j), m, around)
            && CallsBefore(n, kind, k, j + 1) == CallsBefore(n, kind, k, j) + CallAt(n, kind, k, j)
            && Following(n, k, j + 1) == (m.Start? || (!m.End? && Following(n, k, j)))
  {
    hide Learn, Step, Advance, CallAt, Accepted;
  }

  /** Everything at the first message of the packet that follows the one before. */
  lemma NextFrame(n: Net, k: nat)
    requires Arrivals(n) && 0 < k < |n.run| && Accepted(n, k) && Accepted(n, k - 1) && Index(n, k - 1) + 1 == Index(n, k)
    ensures var p, l, j := Index(n, k), k - 1, Size(n, k - 1);
            && OpenBefore(n.packets, p, 0) == OpenBefore(n.packets, p - 1, j)
            && PlacesBefore(n.packets, p, 0) == PlacesBefore(n.packets, p - 1, j)
            && Following(n, k, 0) == Following(n, l, j)
  {
    hide Accepted;
  }

  lemma FollowingNothing(n: Net, k: nat)
    requires Arrivals(n) && k < |n.run| && (k > 0 ==> !Accepted(n, k - 1))
    ensures !Following(n, k, 0)
  {
    hide Accepted;
  }

  lemma SoFar(n: Net, kind: Kind, k: nat)
    requires Arrivals(n) && k < |n.run|
    ensures TableSoFar(n, k) == TableBefore(n, k, 0) && CallsSoFar(n, kind, k) == CallsBefore(n, kind, k, 0)
  {
    hide Accepted;
  }

  lemma FragmentKeepsStep(n: Net, kind: Kind, k: nat, j: nat)
    requires Fair(n) && k < |n.run| && Accepted(n, k) && j < Size(n, k) && MessageAt(n, k, j).Levels?
    requires InStep(n, kind, k, j)
    ensures InStep(n, kind, k, j + 1)
  {
    hide Holds, CallFor, Served, HeldOf, OnFragment, Mixes, Accepted, Extends, Legal, NoUnnoticedGap;
    hide At, OpenBefore, PlacesBefore, TableBefore, CallsBefore, Following;
    var r, p := At(n, kind, k, j), Index(n, k);
    var f, around := MessageAt(n, k, j).fragment, n.run[k].around[j];
    var open, places := OpenBefore(n.packets, p, j), PlacesBefore(n.packets, p, j);
    var held := HeldOf(n, kind, k, places);
    var table := around.defined + r.table;
    NextMessage(n, kind, k, j);
    LegalHere(n, k, j);
    LearnExtends(r.table, Levels(f), around);
    MoreKnown(kind, r.channel, r.table, table, open, held, Following(n, k, j));
    TakeHolds(kind, r.channel, table, open, held, Following(n, k, j), f, f.instrumentId in around.sequencersReady);
    HeldMore(n, kind, k, j, places);
    HeldOfNone(n, kind, k);
  }

  lemma LegalHere(n: Net, k: nat, j: nat)
    requires Fair(n) && k < |n.run| && j < Size(n, k)
    ensures LegalNext(OpenBefore(n.packets, Index(n, k), j), MessageAt(n, k, j))
  {
  }

  lemma HeldOfNone(n: Net, kind: Kind, k: nat)
    requires Arrivals(n) && k < |n.run|
    ensures HeldOf(n, kind, k, []) == []
  {
  }

  /** A message that is not a fragment leaves the unfinished book and what is in hand as they were. */
  lemma OtherKeepsStep(n: Net, kind: Kind, k: nat, j: nat)
    requires Fair(n) && k < |n.run| && Accepted(n, k) && j < Size(n, k) && !MessageAt(n, k, j).Levels?
    requires InStep(n, kind, k, j)
    ensures InStep(n, kind, k, j + 1)
  {
    hide CallFor, Served, Accepted, Legal, NoUnnoticedGap, Scaled, Extends, HeldOf;
    hide At, OpenBefore, PlacesBefore, TableBefore, CallsBefore, Following;
    var r, p := At(n, kind, k, j), Index(n, k);
    var m, around := MessageAt(n, k, j), n.run[k].around[j];
    var open, places := OpenBefore(n.packets, p, j), PlacesBefore(n.packets, p, j);
    NextMessage(n, kind, k, j);
    LegalHere(n, k, j);
    PlacesArePlaces(n.packets, p, j);
    LearnExtends(r.table, m, around);
    MoreKnown(kind, r.channel, r.table, Learn(r.table, m, around), open, HeldOf(n, kind, k, places), Following(n, k, j));
    HeldOfNone(n, kind, k);
  }

  lemma {:induction false} MessagesKeepStep(n: Net, kind: Kind, k: nat, j: nat)
    requires Fair(n) && k < |n.run| && Accepted(n, k) && j <= Size(n, k)
    requires InStep(n, kind, k, 0)
    ensures InStep(n, kind, k, j)
  {
    hide InStep, Accepted, Legal, NoUnnoticedGap;
    if j > 0 {
      MessagesKeepStep(n, kind, k, j - 1);
      if MessageAt(n, k, j - 1).Levels? {
        FragmentKeepsStep(n, kind, k, j - 1);
      } else {
        OtherKeepsStep(n, kind, k, j - 1);
      }
    }
  }

  // Whole runs

  /** Nothing is buffered, and no cycle followed. */
  predicate Blank(s: ChannelState) {
    s.bids == [] && s.asks == [] && s.instrumentId == 0 && !s.ready
  }

  function TableSoFar(n: Net, k: nat): Table
    requires Arrivals(n) && k <= |n.run|
  {
    if k == 0 then map[] else TableBefore(n, k - 1, if Accepted(n, k - 1) then Size(n, k - 1) else 0)
  }

  /** What every run keeps: after an accepted frame both are in step, after a refused one the buffers are empty. */
  ghost predicate Invariant(n: Net, kind: Kind, k: nat)
    requires Arrivals(n) && k <= |n.run|
  {
    var r := Before(n, kind, k);
    && r.table == TableSoFar(n, k)
    && r.calls == CallsSoFar(n, kind, k)
    && !r.mixed
    && if k > 0 && Accepted(n, k - 1) then r == At(n, kind, k - 1, Size(n, k - 1)) && InStep(n, kind, k - 1, Size(n, k - 1))
       else Blank(r.channel)
  }

  lemma BlankHolds(kind: Kind, s: ChannelState, table: Table, open: Book)
    requires Blank(s) && PartialBook(open)
    ensures Holds(kind, s, table, open, [], false)
  {
  }

  lemma HoldsIgnoresControl(kind: Kind, s: ChannelState, t: ChannelState, table: Table, open: Book, held: seq<Level>, following: bool)
    requires Holds(kind, s, table, open, held, following)
    requires t == s.(previous := t.previous, initialized := t.initialized)
    ensures Holds(kind, t, table, open, held, following)
  {
  }

  lemma AcceptedKeepsBuffers(s: ChannelState, number: uint32)
    requires Accepts(s, number)
    ensures var t := Gate(s, number); t == s.(previous := t.previous, initialized := t.initialized)
  {
  }

  lemma RefusedEmptiesBuffers(s: ChannelState, number: uint32)
    requires !Accepts(s, number)
    ensures Blank(Gate(s, number))
  {
  }

  /** An accepted frame finds the receiver in step with the sender just before its packet. */
  lemma FrameKeepsStep(n: Net, kind: Kind, k: nat)
    requires Fair(n) && k < |n.run| && Accepted(n, k) && Invariant(n, kind, k)
    ensures InStep(n, kind, k, 0)
  {
    hide Holds, Accepted, Accepts, Gate, HeldOf, Legal, NoUnnoticedGap, Blank;
    hide At, Before, OpenBefore, PlacesBefore, TableBefore, CallsBefore, Following, TableSoFar, CallsSoFar;
    var r, p := Before(n, kind, k), Index(n, k);
    SoFar(n, kind, k);
    var places := PlacesBefore(n.packets, p, 0);
    AcceptsIff(n, kind, k);
    AcceptedKeepsBuffers(r.channel, Numbers(n)[k]);
    GatedAtFrame(n, kind, k);
    var t := At(n, kind, k, 0).channel;
    NextOrFirst(n, k);
    PlacesArePlaces(n.packets, p, 0);
    if k > 0 && Accepted(n, k - 1) {
      NextFrame(n, k);
      HeldNext(n, kind, k, places);
      HoldsIgnoresControl(kind, r.channel, t, r.table, OpenBefore(n.packets, p, 0), HeldOf(n, kind, k, places), Following(n, k, 0));
    } else {
      NothingHeld(n, kind, k, places);
      FollowingNothing(n, k);
      OpenIsPartial(n.packets, p, 0);
      BlankIgnoresControl(r.channel, t);
      BlankHolds(kind, t, r.table, OpenBefore(n.packets, p, 0));
    }
  }

  lemma BlankIgnoresControl(s: ChannelState, t: ChannelState)
    requires Blank(s) && t == s.(previous := t.previous, initialized := t.initialized)
    ensures Blank(t)
  {
  }

  lemma {:induction false} RunKeepsInvariant(n: Net, kind: Kind, k: nat)
    requires Fair(n) && k <= |n.run|
    ensures Invariant(n, kind, k)
  {
    hide InStep, Accepted, Accepts, Gate, Legal, NoUnnoticedGap, Blank, At, TableBefore, CallsBefore;
    if k == 0 {
      FreshIsBlank();
    } else {
      RunKeepsInvariant(n, kind, k - 1);
      AfterArrival(n, kind, k - 1);
      if Accepted(n, k - 1) {
        FrameKeepsStep(n, kind, k - 1);
        MessagesKeepStep(n, kind, k - 1, Size(n, k - 1));
        InStepParts(n, kind, k - 1, Size(n, k - 1));
      } else {
        AcceptsIff(n, kind, k - 1);
        RefusedEmptiesBuffers(Before(n, kind, k - 1).channel, Numbers(n)[k - 1]);
        GatedAtFrame(n, kind, k - 1);
        SoFar(n, kind, k - 1);
      }
    }
  }

  lemma FreshIsBlank()
    ensures Blank(FRESH)
  {
  }

  lemma InStepParts(n: Net, kind: Kind, k: nat, j: nat)
    requires Arrivals(n) && IsMoment(n, k, j) && InStep(n, kind, k, j)
    ensures var r := At(n, kind, k, j);
            r.table == TableBefore(n, k, j) && r.calls == CallsBefore(n, kind, k, j) && !r.mixed
  {
  }

  /** In every run without an unnoticed gap the receiver makes exactly these calls, in this order. */
  lemma {:induction false} CallsAreExactlyThese(n: Net, kind: Kind)
    requires Fair(n)
    ensures Final(n, kind).calls == AllCalls(n, kind)
  {
    RunKeepsInvariant(n, kind, |n.run|);
  }

  /** And so at every message of an accepted arrival. */
  lemma {:induction false} LogIsExact(n: Net, kind: Kind, k: nat, j: nat)
    requires Fair(n) && k < |n.run| && Accepted(n, k) && j <= Size(n, k)
    ensures At(n, kind, k, j).calls == CallsBefore(n, kind, k, j)
  {
    hide Accepted, Legal, NoUnnoticedGap, Holds;
    RunKeepsInvariant(n, kind, k);
    FrameKeepsStep(n, kind, k);
    MessagesKeepStep(n, kind, k, j);
  }

  /** What one accepted message adds to the log. */
  lemma {:induction false} LogGrows(n: Net, kind: Kind, k: nat, j: nat)
    requires Fair(n) && k < |n.run| && Accepted(n, k) && j < Size(n, k)
    ensures At(n, kind, k, j + 1).calls == At(n, kind, k, j).calls + CallAt(n, kind, k, j)
  {
    hide Accepted, Legal, NoUnnoticedGap, Step, CallAt;
    LogIsExact(n, kind, k, j);
    LogIsExact(n, kind, k, j + 1);
  }

  // One arrival at a time

  function Gated(r: Receiver, number: uint32): Receiver {
    r.(channel := Gate(r.channel, number))
  }

  lemma Refused(n: Net, kind: Kind, k: nat)
    requires Arrivals(n) && k < |n.run| && !Accepts(Before(n, kind, k).channel, Numbers(n)[k])
    ensures Before(n, kind, k + 1) == Gated(Before(n, kind, k), Numbers(n)[k])
  {
  }

  lemma AcceptedOne(n: Net, kind: Kind, k: nat)
    requires Arrivals(n) && k < |n.run| && Accepts(Before(n, kind, k).channel, Numbers(n)[k]) && Size(n, k) == 1
    ensures Before(n, kind, k + 1) == Step(kind, Gated(Before(n, kind, k), Numbers(n)[k]), MessageAt(n, k, 0), n.run[k].around[0])
  {
    hide Step, Gate;
    assert At(n, kind, k, 1) == Step(kind, At(n, kind, k, 0), MessageAt(n, k, 0), n.run[k].around[0]);
  }

  lemma AcceptedTwo(n: Net, kind: Kind, k: nat)
    requires Arrivals(n) && k < |n.run| && Accepts(Before(n, kind, k).channel, Numbers(n)[k]) && Size(n, k) == 2
    ensures var a, m := n.run[k].around, Gated(Before(n, kind, k), Numbers(n)[k]);
            Before(n, kind, k + 1) == Step(kind, Step(kind, m, MessageAt(n, k, 0), a[0]), MessageAt(n, k, 1), a[1])
  {
    hide Step, Gate;
    assert At(n, kind, k, 1) == Step(kind, At(n, kind, k, 0), MessageAt(n, k, 0), n.run[k].around[0]);
    assert At(n, kind, k, 2) == Step(kind, At(n, kind, k, 1), MessageAt(n, k, 1), n.run[k].around[1]);
  }

  lemma AcceptedThree(n: Net, kind: Kind, k: nat)
    requires Arrivals(n) && k < |n.run| && Accepts(Before(n, kind, k).channel, Numbers(n)[k]) && Size(n, k) == 3
    ensures var a, m := n.run[k].around, Gated(Before(n, kind, k), Numbers(n)[k]);
            Before(n, kind, k + 1)
            == Step(kind, Step(kind, Step(kind, m, MessageAt(n, k, 0), a[0]), MessageAt(n, k, 1), a[1]), MessageAt(n, k, 2), a[2])
  {
    hide Step, Gate;
    assert At(n, kind, k, 1) == Step(kind, At(n, kind, k, 0), MessageAt(n, k, 0), n.run[k].around[0]);
    assert At(n, kind, k, 2) == Step(kind, At(n, kind, k, 1), MessageAt(n, k, 1), n.run[k].around[1]);
    assert At(n, kind, k, 3) == Step(kind, At(n, kind, k, 2), MessageAt(n, k, 2), n.run[k].around[2]);
  }
}
