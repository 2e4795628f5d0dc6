/**
 The state kept per multicast channel (src/roq/deribit/gateway/channel.cpp): the
 last sequence number received, whether the one allowed jump was spent, whether a
 snapshot cycle is being followed, and the buffers that collect one book over
 several datagrams.
 */
module Channels {
  import opened Words

  datatype Side = Buy | Sell

  /** One price level of a book message, before scaling. */
  datatype Level = Level(side: Side, price: real, amount: real)

  /** One price level as handed downstream. */
  datatype MBPUpdate = MBPUpdate(price: real, quantity: real)

  datatype ChannelState = ChannelState(
    previous: uint32,
    initialized: bool,
    ready: bool,
    instrumentId: uint32,
    bids: seq<MBPUpdate>,
    asks: seq<MBPUpdate>)

  const FRESH := ChannelState(0, false, false, 0, [], [])

  predicate Accepts(s: ChannelState, n: uint32) {
    n == Succ(s.previous) || (n != s.previous && !s.initialized)
  }

  function AfterReceive(s: ChannelState, n: uint32): ChannelState {
    if n == Succ(s.previous) then s.(previous := n)
    else if n == s.previous then s
    else if s.initialized then s.(previous := n, ready := false)
    else s.(previous := n, initialized := true)
  }

  function AfterReset(s: ChannelState): ChannelState {
    s.(bids := [], asks := [], instrumentId := 0, ready := false)
  }

  /** What both receivers do with a frame header: receive, and reset on refusal. */
  function Gate(s: ChannelState, n: uint32): ChannelState {
    if Accepts(s, n) then AfterReceive(s, n) else AfterReset(AfterReceive(s, n))
  }

  function WithoutBook(s: ChannelState): ChannelState {
    s.(instrumentId := 0, bids := [], asks := [])
  }

  /** The levels of one side, in order, with the amount scaled to a quantity. */
  function Scaled(levels: seq<Level>, side: Side, multiplier: real): seq<MBPUpdate> {
    if levels == [] then [] else ScaledOne(levels[0], side, multiplier) + Scaled(levels[1..], side, multiplier)
  }

  function ScaledOne(level: Level, side: Side, multiplier: real): seq<MBPUpdate> {
    if level.side == side then [ToUpdate(level, multiplier)] else []
  }

  function ToUpdate(level: Level, multiplier: real): MBPUpdate {
    MBPUpdate(level.price, level.amount * multiplier)
  }

  function WithLevels(s: ChannelState, levels: seq<Level>, multiplier: real): ChannelState {
    s.(bids := s.bids + Scaled(levels, Buy, multiplier), asks := s.asks + Scaled(levels, Sell, multiplier))
  }

  lemma {:induction false} ScaledConcat(a: seq<Level>, b: seq<Level>, side: Side, multiplier: real)
    ensures Scaled(a + b, side, multiplier) == Scaled(a, side, multiplier) + Scaled(b, side, multiplier)
  {
    if a == [] {
      assert a + b == b;
    } else {
      assert (a + b)[0] == a[0] && (a + b)[1..] == a[1..] + b;
      ScaledConcat(a[1..], b, side, multiplier);
      Assoc(ScaledOne(a[0], side, multiplier), Scaled(a[1..], side, multiplier), Scaled(b, side, multiplier));
    }
  }

  lemma ScaledSnoc(levels: seq<Level>, i: nat, side: Side, multiplier: real)
    requires i < |levels|
    ensures Scaled(levels[..i + 1], side, multiplier)
         == Scaled(levels[..i], side, multiplier) + ScaledOne(levels[i], side, multiplier)
  {
    assert levels[..i + 1] == levels[..i] + [levels[i]];
    ScaledConcat(levels[..i], [levels[i]], side, multiplier);
    assert Scaled([levels[i]], side, multiplier) == ScaledOne(levels[i], side, multiplier);
  }

  /** Every level lands on exactly one side, so both sides are empty only together with the list. */
  lemma {:induction false} ScaledCount(levels: seq<Level>, multiplier: real)
    ensures |Scaled(levels, Buy, multiplier)| + |Scaled(levels, Sell, multiplier)| == |levels|
  {
    if levels != [] {
      ScaledCount(levels[1..], multiplier);
    }
  }

  // What scaling means, level by level

  function PositionsOf(levels: seq<Level>, side: Side): set<nat> {
    set i: nat | i < |levels| && levels[i].side == side
  }

  /** The k-th update has the price of the k-th level of the side, and its amount times the multiplier. */
  ghost predicate IsSide(updates: seq<MBPUpdate>, levels: seq<Level>, side: Side, multiplier: real) {
    exists at: seq<nat> :: Enumerates(at, PositionsOf(levels, side)) && MatchesAt(updates, levels, at, multiplier)
  }

  ghost predicate MatchesAt(updates: seq<MBPUpdate>, levels: seq<Level>, at: seq<nat>, multiplier: real) {
    && |at| == |updates|
    && forall k: nat :: k < |at| ==>
         at[k] < |levels| && updates[k].price == levels[at[k]].price && updates[k].quantity == levels[at[k]].amount * multiplier
  }

  lemma PositionsMore(levels: seq<Level>, last: Level, side: Side)
    ensures PositionsOf(levels + [last], side) == PositionsOf(levels, side) + if last.side == side then {|levels|} else {}
  {
    assert forall i: nat :: i < |levels| ==> (levels + [last])[i] == levels[i];
  }

  lemma MatchesMore(updates: seq<MBPUpdate>, levels: seq<Level>, at: seq<nat>, multiplier: real, last: Level)
    requires MatchesAt(updates, levels, at, multiplier)
    ensures MatchesAt(updates, levels + [last], at, multiplier)
    ensures MatchesAt(updates + [ToUpdate(last, multiplier)], levels + [last], at + [|levels|], multiplier)
  {
    var more := levels + [last];
    assert forall i: nat :: i < |levels| ==> more[i] == levels[i];
    assert more[|levels|] == last;
  }

  /** One level more. */
  lemma IsSideMore(updates: seq<MBPUpdate>, levels: seq<Level>, last: Level, side: Side, multiplier: real)
    requires IsSide(updates, levels, side, multiplier)
    ensures IsSide(updates + ScaledOne(last, side, multiplier), levels + [last], side, multiplier)
  {
    hide MatchesAt, Enumerates, ToUpdate;
    var at: seq<nat> :| Enumerates(at, PositionsOf(levels, side)) && MatchesAt(updates, levels, at, multiplier);
    PositionsMore(levels, last, side);
    MatchesMore(updates, levels, at, multiplier, last);
    if last.side == side {
      EnumeratesMore(at, PositionsOf(levels, side), |levels|);
    } else {
      assert updates + [] == updates && PositionsOf(levels, side) + {} == PositionsOf(levels, side);
    }
  }

  /** Scaling keeps exactly the levels of its side, in order, each with its price and its amount times the multiplier. */
  lemma {:induction false} ScaledIsSide(levels: seq<Level>, side: Side, multiplier: real)
    ensures IsSide(Scaled(levels, side, multiplier), levels, side, multiplier)
  {
    if levels == [] {
      assert Enumerates([], PositionsOf(levels, side)) && MatchesAt([], levels, [], multiplier);
    } else {
      var n := |levels| - 1;
      var front := levels[..n];
      ScaledIsSide(front, side, multiplier);
      IsSideMore(Scaled(front, side, multiplier), front, levels[n], side, multiplier);
      ScaledSnoc(levels, n, side, multiplier);
      assert levels[..n + 1] == levels && levels == front + [levels[n]];
    }
  }

  class Channel {
    var instrumentId: uint32
    var bids: seq<MBPUpdate>
    var asks: seq<MBPUpdate>
    var previousSequenceNumber: uint32
    var initialized: bool
    var ready: bool

    function State(): ChannelState
      reads this
    {
      ChannelState(previousSequenceNumber, initialized, ready, instrumentId, bids, asks)
    }

    constructor ()
      ensures State() == FRESH
    {
      instrumentId, bids, asks := 0, [], [];
      previousSequenceNumber, initialized, ready := 0, false, false;
    }

    method Receive(n: uint32) returns (result: bool)
      modifies this
      ensures result == Accepts(old(State()), n)
      ensures State() == AfterReceive(old(State()), n)
    {
      result := true;
      if n == Succ(previousSequenceNumber) {
        previousSequenceNumber := n;
      } else {
        if n == previousSequenceNumber {
          result := false;
        } else {
          if initialized {
            result := false;
            ready := false;
          } else {
            initialized := true;
          }
          previousSequenceNumber := n;
        }
      }
    }

    method Reset()
      modifies this
      ensures State() == AfterReset(old(State()))
    {
      bids, asks := [], [];
      instrumentId := 0;
      ready := false;
    }

    method SnapshotStart()
      modifies this
      ensures State() == old(State()).(ready := true)
    {
      ready := true;
    }

    method SnapshotEnd()
      modifies this
      ensures State() == old(State()).(ready := false)
    {
      ready := false;
    }

    method Append(levels: seq<Level>, multiplier: real)
      modifies this
      ensures State() == WithLevels(old(State()), levels, multiplier)
      ensures |old(bids)| <= |bids| && IsSide(bids[|old(bids)|..], levels, Buy, multiplier)
      ensures |old(asks)| <= |asks| && IsSide(asks[|old(asks)|..], levels, Sell, multiplier)
    {
      var i := 0;
      while i < |levels|
        invariant i <= |levels|
        invariant State() == old(State()).(bids := bids, asks := asks)
        invariant bids == old(bids) + Scaled(levels[..i], Buy, multiplier)
        invariant asks == old(asks) + Scaled(levels[..i], Sell, multiplier)
      {
        var update := ToUpdate(levels[i], multiplier);
        ScaledSnoc(levels, i, Buy, multiplier);
        ScaledSnoc(levels, i, Sell, multiplier);
        match levels[i].side {
          case Buy => bids := bids + [update];
          case Sell => asks := asks + [update];
        }
        assert bids == old(bids) + (Scaled(levels[..i], Buy, multiplier) + ScaledOne(levels[i], Buy, multiplier));
        assert asks == old(asks) + (Scaled(levels[..i], Sell, multiplier) + ScaledOne(levels[i], Sell, multiplier));
        i := i + 1;
      }
      assert levels[..i] == levels;
      ScaledIsSide(levels, Buy, multiplier);
      ScaledIsSide(levels, Sell, multiplier);
      assert bids[|old(bids)|..] == Scaled(levels, Buy, multiplier);
      assert asks[|old(asks)|..] == Scaled(levels, Sell, multiplier);
    }

    method ClearBook()
      modifies this
      ensures State() == WithoutBook(old(State()))
    {
      instrumentId := 0;
      bids, asks := [], [];
    }
  }

  /** Acceptance and the two fields behind it depend on nothing else in the channel. */
  predicate SameControl(s: ChannelState, t: ChannelState) {
    s.previous == t.previous && s.initialized == t.initialized
  }

  lemma GateControl(s: ChannelState, t: ChannelState, n: uint32)
    requires SameControl(s, t)
    ensures Accepts(s, n) == Accepts(t, n)
    ensures SameControl(Gate(s, n), Gate(t, n))
  {
  }

  // Acceptance over whole runs. A run is the list of sequence numbers received, in order.

  function Heard(numbers: seq<uint32>): ChannelState {
    if numbers == [] then FRESH else Gate(Heard(numbers[..|numbers| - 1]), numbers[|numbers| - 1])
  }

  /** The number received before position `i`, or 0 when there was none. */
  function NumberBefore(numbers: seq<uint32>, i: nat): uint32
    requires i <= |numbers|
  {
    if i == 0 then 0 else numbers[i - 1]
  }

  /** Position `i` neither repeats nor continues what came before it. */
  predicate Jump(numbers: seq<uint32>, i: nat)
    requires i < |numbers|
  {
    numbers[i] != NumberBefore(numbers, i) && numbers[i] != Succ(NumberBefore(numbers, i))
  }

  predicate AcceptedAt(numbers: seq<uint32>, i: nat)
    requires i < |numbers|
  {
    Accepts(Heard(numbers[..i]), numbers[i])
  }

  lemma {:induction false} HeardIsLastNumber(numbers: seq<uint32>)
    ensures Heard(numbers).previous == NumberBefore(numbers, |numbers|)
    ensures Heard(numbers).initialized <==> exists i: nat :: i < |numbers| && Jump(numbers, i)
  {
    if numbers != [] {
      var n := |numbers| - 1;
      var front := numbers[..n];
      HeardIsLastNumber(front);
      assert forall i: nat :: i < n ==> (Jump(numbers, i) <==> Jump(front, i));
      assert NumberBefore(front, n) == NumberBefore(numbers, n);
      if Heard(front).initialized {
        var i: nat :| i < |front| && Jump(front, i);
        assert Jump(numbers, i);
      } else if Jump(numbers, n) {
        assert Heard(numbers).initialized;
      }
    }
  }

  /** A frame is accepted exactly when it continues its predecessor or spends the one allowed jump. */
  lemma {:induction false} AcceptanceRule(numbers: seq<uint32>, i: nat)
    requires i < |numbers|
    ensures AcceptedAt(numbers, i) <==>
            (numbers[i] == Succ(NumberBefore(numbers, i)) || (Jump(numbers, i) && forall j: nat :: j < i ==> !Jump(numbers, j)))
  {
    var front := numbers[..i];
    HeardIsLastNumber(front);
    assert forall j: nat :: j < i ==> (Jump(numbers, j) <==> Jump(front, j));
    assert NumberBefore(front, i) == NumberBefore(numbers, i);
  }

  /** A gap that went unnoticed: a jump was accepted although earlier frames had been accepted. */
  predicate UnnoticedGap(numbers: seq<uint32>, i: nat)
    requires i < |numbers|
  {
    AcceptedAt(numbers, i) && Jump(numbers, i) && exists j: nat :: j < i && AcceptedAt(numbers, j)
  }

  /** The first number received that is not 0 is not 1 either. A first 0 repeats the initial state. */
  predicate GoodStart(numbers: seq<uint32>) {
    forall i: nat :: i < |numbers| && numbers[i] == 1 ==> exists j: nat :: j < i && numbers[j] != 0
  }

  lemma GoodStartPrefix(numbers: seq<uint32>, n: nat)
    requires GoodStart(numbers) && n <= |numbers|
    ensures GoodStart(numbers[..n])
  {
    var front := numbers[..n];
    forall i: nat | i < |front| && front[i] == 1
      ensures exists j: nat :: j < i && front[j] != 0
    {
      assert numbers[i] == 1;
      var j: nat :| j < i && numbers[j] != 0;
      assert front[j] != 0;
    }
  }

  lemma {:induction false} ZerosOnlyDoNotInitialize(numbers: seq<uint32>)
    requires forall i: nat :: i < |numbers| ==> numbers[i] == 0
    ensures Heard(numbers) == FRESH
  {
    if numbers != [] {
      ZerosOnlyDoNotInitialize(numbers[..|numbers| - 1]);
    }
  }

  /** With a good start, anything but zeros has initialized the channel. */
  lemma {:induction false} GoodStartInitializes(numbers: seq<uint32>)
    requires GoodStart(numbers)
    ensures Heard(numbers).initialized <==> exists i: nat :: i < |numbers| && numbers[i] != 0
  {
    if numbers != [] {
      var n := |numbers| - 1;
      var front := numbers[..n];
      GoodStartPrefix(numbers, n);
      GoodStartInitializes(front);
      if Heard(front).initialized {
        var i: nat :| i < |front| && front[i] != 0;
        assert numbers[i] != 0;
      } else {
        assert forall i: nat :: i < n ==> numbers[i] == front[i] == 0;
        ZerosOnlyDoNotInitialize(front);
      }
    }
  }

  /**
   Gaps go unnoticed exactly on channels whose first non-zero number was 1 and
   which saw a jump later on.
   */
  lemma {:induction false} GapsUnnoticedIff(numbers: seq<uint32>)
    ensures (exists i: nat :: i < |numbers| && UnnoticedGap(numbers, i)) <==>
            (!GoodStart(numbers) && exists i: nat :: i < |numbers| && Jump(numbers, i))
  {
    if i: nat :| i < |numbers| && UnnoticedGap(numbers, i) {
      AcceptanceRule(numbers, i);
      var j: nat :| j < i && AcceptedAt(numbers, j);
      AcceptedWithoutJumpStartsAtOne(numbers, j);
    }
    if !GoodStart(numbers) && exists i: nat :: i < |numbers| && Jump(numbers, i) {
      var one: nat :| one < |numbers| && numbers[one] == 1 && forall j: nat :: j < one ==> numbers[j] == 0;
      assert forall j: nat :: j <= one ==> NumberBefore(numbers, j) == 0;
      AcceptanceRule(numbers, one);
      var jump: nat :| jump < |numbers| && Jump(numbers, jump);
      var i := FirstJump(numbers, jump);
      AcceptanceRule(numbers, i);
      assert one < i;
      assert UnnoticedGap(numbers, i);
    }
  }

  /** No gap went unnoticed. Any run with a good start is of this kind, and any run without a jump. */
  predicate NoUnnoticedGap(numbers: seq<uint32>) {
    forall i: nat :: i < |numbers| ==> !UnnoticedGap(numbers, i)
  }

  lemma {:induction false} GoodStartIsEnough(numbers: seq<uint32>)
    requires GoodStart(numbers)
    ensures NoUnnoticedGap(numbers)
  {
    GapsUnnoticedIff(numbers);
  }

  /** After the first accepted frame only neighbours are accepted. */
  lemma {:induction false} AcceptedContinues(numbers: seq<uint32>, i: nat, j: nat)
    requires NoUnnoticedGap(numbers) && i < j < |numbers|
    requires AcceptedAt(numbers, i) && AcceptedAt(numbers, j)
    ensures numbers[j] == Succ(numbers[j - 1])
  {
    AcceptanceRule(numbers, j);
    assert !UnnoticedGap(numbers, j);
  }

  /** The earliest position holding a number other than 0. */
  ghost function FirstNonZero(numbers: seq<uint32>): (i: nat)
    requires exists i: nat :: i < |numbers| && numbers[i] != 0
    ensures i < |numbers| && numbers[i] != 0
    ensures forall j: nat :: j < i ==> numbers[j] == 0
  {
    if numbers[0] != 0 then 0 else
      assert exists i: nat :: i < |numbers[1..]| && numbers[1..][i] != 0 by {
        var i: nat :| i < |numbers| && numbers[i] != 0;
        assert numbers[1..][i - 1] != 0;
      }
      FirstNonZero(numbers[1..]) + 1
  }

  lemma {:induction false} AcceptedWithoutJumpStartsAtOne(numbers: seq<uint32>, j: nat)
    requires j < |numbers| && AcceptedAt(numbers, j)
    requires forall k: nat :: k <= j ==> !Jump(numbers, k)
    ensures !GoodStart(numbers)
  {
    AcceptanceRule(numbers, j);
    assert numbers[j] == Succ(NumberBefore(numbers, j));
    assert exists k: nat :: k < |numbers| && numbers[k] != 0 by {
      if numbers[j] == 0 { assert NumberBefore(numbers, j) == numbers[j - 1] != 0; }
    }
    var k := FirstNonZero(numbers);
    assert k <= j by {
      if numbers[j] == 0 { assert numbers[j - 1] != 0; }
    }
    assert !Jump(numbers, k) && NumberBefore(numbers, k) == 0;
  }

  ghost function FirstJump(numbers: seq<uint32>, bound: nat): (i: nat)
    requires bound < |numbers| && Jump(numbers, bound)
    ensures i <= bound && Jump(numbers, i)
    ensures forall j: nat :: j < i ==> !Jump(numbers, j)
  {
    if i: nat :| i < bound && Jump(numbers, i) then FirstJump(numbers, i) else bound
  }
}
