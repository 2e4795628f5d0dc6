/**
 The way from the sender to a receiver: packets are numbered, and arrive with any loss,
 duplication and reordering. What a receiver may use of each arrival is stated here without
 the receiver: which frames are accepted, which instruments are served, which of the
 fragments of a book are in hand.
 */
module Network {
  import opened Words
  import opened Channels
  import opened Books

  /** What may change around each message: instruments get defined, sequencers turn ready or not. */
  datatype Surroundings = Surroundings(defined: Table, sequencersReady: set<uint32>)

  /** The arrival of packet `index`. */
  datatype Arrival = Arrival(index: nat, around: seq<Surroundings>)

  /** A stream whose packets are numbered from `first`, and a run of arrivals: any list of them. */
  datatype Net = Net(packets: seq<Packet>, first: uint32, run: seq<Arrival>)

  /** The number on packet `p`: consecutive from `first`, in 32 bits. */
  function Number(first: uint32, p: nat): uint32 {
    (first + p) % TWO_TO_THE_32
  }

  /** Fewer than 2^32 packets carry different numbers, and only neighbours carry consecutive ones. */
  lemma {:induction false} NumbersIdentifyPackets(first: uint32, p: nat, q: nat, bound: nat)
    requires p < bound && q < bound && bound < TWO_TO_THE_32
    ensures Number(first, p) == Number(first, q) ==> p == q
    ensures Number(first, q) == Succ(Number(first, p)) <==> q == p + 1
  {
  }

  predicate Arrivals(n: Net) {
    forall k: nat :: k < |n.run| ==> n.run[k].index < |n.packets| && |n.run[k].around| == |n.packets[n.run[k].index]|
  }

  function Numbers(n: Net): seq<uint32> {
    seq(|n.run|, k requires 0 <= k < |n.run| => Number(n.first, n.run[k].index))
  }

  /** A legal stream of fewer than 2^32 packets, and a run in which no gap goes unnoticed. */
  ghost predicate Fair(n: Net) {
    Arrivals(n) && Legal(n.packets) && |n.packets| < TWO_TO_THE_32 && NoUnnoticedGap(Numbers(n))
  }

  // A point of the run lies before message `j` of arrival `k`.

  predicate IsMoment(n: Net, k: nat, j: nat) {
    k < |n.run| && n.run[k].index < |n.packets| && j <= |n.packets[n.run[k].index]|
  }

  function Index(n: Net, k: nat): nat
    requires k < |n.run|
  {
    n.run[k].index
  }

  /** The number of messages in arrival `k`. */
  function Size(n: Net, k: nat): nat
    requires Arrivals(n) && k < |n.run|
  {
    |n.packets[n.run[k].index]|
  }

  function MessageAt(n: Net, k: nat, j: nat): Message
    requires Arrivals(n) && k < |n.run| && j < Size(n, k)
  {
    n.packets[n.run[k].index][j]
  }

  predicate Accepted(n: Net, k: nat) {
    k < |n.run| && AcceptedAt(Numbers(n), k)
  }

  /** The packets of the last `d` arrivals before `k`, and of `k`, are neighbours in the stream, and all were accepted. */
  predicate Followed(n: Net, k: nat, d: nat) {
    && d <= k < |n.run|
    && forall t: nat :: k - d <= t <= k ==> Accepted(n, t) && Index(n, t) + (k - t) == Index(n, k)
  }

  lemma FollowedStep(n: Net, k: nat, d: nat)
    requires 0 < d && 0 < k
    ensures Followed(n, k, d)
            <==> k < |n.run| && Accepted(n, k) && Index(n, k - 1) + 1 == Index(n, k) && Followed(n, k - 1, d - 1)
  {
    if k < |n.run| && Accepted(n, k) && Index(n, k - 1) + 1 == Index(n, k) && Followed(n, k - 1, d - 1) {
      forall t: nat | k - d <= t <= k
        ensures Accepted(n, t) && Index(n, t) + (k - t) == Index(n, k)
      {
        assert t < k ==> (k - 1) - (d - 1) <= t <= k - 1;
      }
    }
    if Followed(n, k, d) {
      assert Accepted(n, k - 1) && Index(n, k - 1) + 1 == Index(n, k);
      assert forall t: nat :: (k - 1) - (d - 1) <= t <= k - 1 ==> Accepted(n, t) && Index(n, t) + (k - t) == Index(n, k);
    }
  }

  lemma FollowedNeedsThePrevious(n: Net, k: nat, d: nat)
    requires 0 < d && Followed(n, k, d)
    ensures k > 0 && Accepted(n, k - 1) && Index(n, k - 1) + 1 == Index(n, k)
  {
    assert k - d <= k - 1 <= k;
  }

  /** A part of the arrivals will do. */
  lemma FollowedPart(n: Net, s: nat, t: nat, k: nat)
    requires s <= t <= k && Followed(n, k, k - s)
    ensures Followed(n, t, t - s)
  {
    assert Index(n, t) + (k - t) == Index(n, k);
    forall u: nat | t - (t - s) <= u <= t
      ensures Accepted(n, u) && Index(n, u) + (t - u) == Index(n, t)
    {
      assert k - (k - s) <= u <= k;
    }
  }

  /** The arrivals from `s` to `k` bring neighbouring packets. */
  predicate BackToBack(n: Net, s: nat, k: nat) {
    s <= k < |n.run| && forall t: nat :: s <= t <= k ==> Index(n, t) + (k - t) == Index(n, k)
  }

  /** Then all are accepted if the first one is. */
  lemma {:induction false} BackToBackIsFollowed(n: Net, s: nat, k: nat)
    requires Fair(n) && Accepted(n, s) && BackToBack(n, s, k)
    ensures Followed(n, k, k - s)
    decreases k
  {
    hide Accepted;
    if s == k {
    } else {
      assert Index(n, k - 1) + 1 == Index(n, k);
      assert forall t: nat :: s <= t <= k - 1 ==> Index(n, t) + (k - t) == Index(n, k);
      BackToBackIsFollowed(n, s, k - 1);
      NextIsAccepted(n, k);
      FollowedStep(n, k, k - s);
    }
  }

  lemma NextIsAccepted(n: Net, k: nat)
    requires 0 < k < |n.run| && Index(n, k) == Index(n, k - 1) + 1
    ensures Accepted(n, k)
  {
    AcceptanceRule(Numbers(n), k);
  }

  /** After the first accepted frame, an accepted one brings the next packet. */
  lemma {:induction false} AcceptedIsNext(n: Net, i: nat, k: nat)
    requires Fair(n) && i < k && Accepted(n, i) && Accepted(n, k)
    ensures Index(n, k) == Index(n, k - 1) + 1
  {
    AcceptedContinues(Numbers(n), i, k);
    NumbersIdentifyPackets(n.first, Index(n, k - 1), Index(n, k), |n.packets|);
  }

  /** Once a frame has been accepted, an arrival is accepted iff it brings the packet behind that of the arrival before. */
  lemma {:induction false} AcceptedIffNext(n: Net, i: nat, k: nat)
    requires Fair(n) && i < k < |n.run| && Accepted(n, i)
    ensures Accepted(n, k) <==> Index(n, k) == Index(n, k - 1) + 1
  {
    hide Accepted, Legal, NoUnnoticedGap;
    if Index(n, k) == Index(n, k - 1) + 1 {
      NextIsAccepted(n, k);
    }
    if Accepted(n, k) {
      AcceptedIsNext(n, i, k);
    }
  }

  /** The packet of the accepted arrival `s` comes again at `t`, directly behind its predecessor in the stream. */
  predicate ComesAgain(n: Net, s: nat, t: nat) {
    s < t < |n.run| && Accepted(n, s) && Index(n, s) == Index(n, t) == Index(n, t - 1) + 1
  }

  /** An accepted frame either brings the next packet, or none was accepted before it. */
  lemma NextOrFirst(n: Net, k: nat)
    requires Fair(n) && Accepted(n, k)
    ensures (k > 0 && Index(n, k) == Index(n, k - 1) + 1) || forall i: nat :: i < k ==> !Accepted(n, i)
  {
    if i: nat :| i < k && Accepted(n, i) {
      AcceptedIsNext(n, i, k);
    }
  }

  // What is known

  function Learn(table: Table, m: Message, around: Surroundings): Table {
    var t := around.defined + table;
    if m.Define? then map[m.instrumentId := m.info] + t else t
  }

  /** The instruments known before message `j` of arrival `k`; the messages of a refused frame are not read. */
  function TableBefore(n: Net, k: nat, j: nat): Table
    requires Arrivals(n) && IsMoment(n, k, j)
    decreases k, j
  {
    if j > 0 then Learn(TableBefore(n, k, j - 1), MessageAt(n, k, j - 1), n.run[k].around[j - 1])
    else if k > 0 then TableBefore(n, k - 1, if Accepted(n, k - 1) then Size(n, k - 1) else 0)
    else map[]
  }

  /** The instruments known when message `j` of arrival `k` is handled. */
  function TableAt(n: Net, k: nat, j: nat): Table
    requires Arrivals(n) && k < |n.run| && j < Size(n, k)
  {
    n.run[k].around[j].defined + TableBefore(n, k, j)
  }

  /** The instrument of a fragment is known and not discarded when it is handled. */
  predicate ServedAt(n: Net, k: nat, j: nat)
    requires Arrivals(n) && k < |n.run| && j < Size(n, k) && MessageAt(n, k, j).Levels?
  {
    Served(TableAt(n, k, j), MessageAt(n, k, j).fragment.instrumentId)
  }

  /** The sequencer of a fragment's instrument is not ready when it is handled. */
  predicate IdleAt(n: Net, k: nat, j: nat)
    requires Arrivals(n) && k < |n.run| && j < Size(n, k) && MessageAt(n, k, j).Levels?
  {
    MessageAt(n, k, j).fragment.instrumentId !in n.run[k].around[j].sequencersReady
  }

  lemma LearnExtends(table: Table, m: Message, around: Surroundings)
    ensures Extends(table, around.defined + table) && Extends(around.defined + table, Learn(table, m, around))
    ensures Extends(table, Learn(table, m, around))
  {
  }

  /** Nothing known is forgotten or changed. */
  lemma {:induction false} TablesExtend(n: Net, k: nat, j: nat, s: nat, i: nat)
    requires Arrivals(n) && IsMoment(n, s, i) && IsMoment(n, k, j) && NotAfter(s, i, k, j)
    requires s < k ==> (Accepted(n, s) || i == 0)
    ensures Extends(TableBefore(n, s, i), TableBefore(n, k, j))
    decreases k, j
  {
    hide Learn, Accepted;
    if s == k && i == j {
    } else if j > 0 {
      TablesExtend(n, k, j - 1, s, i);
      LearnExtends(TableBefore(n, k, j - 1), MessageAt(n, k, j - 1), n.run[k].around[j - 1]);
    } else {
      TablesExtend(n, k - 1, if Accepted(n, k - 1) then Size(n, k - 1) else 0, s, i);
    }
  }

  // Snapshot cycles

  /** A snapshot cycle is being followed: it started, was not ended, and every frame since was accepted. */
  predicate Following(n: Net, k: nat, j: nat)
    requires Arrivals(n) && IsMoment(n, k, j)
    decreases k, j
  {
    if j > 0 then
      var m := MessageAt(n, k, j - 1);
      m.Start? || (!m.End? && Following(n, k, j - 1))
    else k > 0 && Accepted(n, k) && Accepted(n, k - 1) && Following(n, k - 1, Size(n, k - 1))
  }

  predicate Precedes(s: nat, i: nat, k: nat, j: nat) {
    s < k || (s == k && i < j)
  }

  /** No SnapshotEnd from message `i` of arrival `s` on, before message `j` of arrival `k`. */
  ghost predicate NoEndSince(n: Net, s: nat, i: nat, k: nat, j: nat)
    requires Arrivals(n) && k < |n.run|
  {
    forall t: nat, l: nat :: Precedes(t, l, k, j) && l < Size(n, t) && NotAfter(s, i, t, l) ==> !MessageAt(n, t, l).End?
  }

  /** Message `i` of arrival `s` started the cycle that is followed before message `j` of arrival `k`. */
  ghost predicate StartedAt(n: Net, s: nat, i: nat, k: nat, j: nat)
    requires Arrivals(n) && IsMoment(n, k, j)
  {
    && Precedes(s, i, k, j) && i < Size(n, s)
    && MessageAt(n, s, i).Start?
    && Followed(n, k, k - s)
    && NoEndSince(n, s, i, k, j)
  }

  ghost predicate StartedBefore(n: Net, k: nat, j: nat)
    requires Arrivals(n) && IsMoment(n, k, j)
  {
    exists s: nat, i: nat :: StartedAt(n, s, i, k, j)
  }

  lemma StartedMessage(n: Net, s: nat, i: nat, k: nat, j: nat)
    requires Arrivals(n) && IsMoment(n, k, j) && j > 0 && Accepted(n, k)
    ensures var m := MessageAt(n, k, j - 1);
            StartedAt(n, s, i, k, j) <==> (s == k && i == j - 1 && m.Start?) || (StartedAt(n, s, i, k, j - 1) && !m.End?)
  {
    hide Accepted;
    if s == k && i == j - 1 {
      assert Followed(n, k, 0);
    } else {
      assert forall t: nat, l: nat :: Precedes(t, l, k, j) <==> Precedes(t, l, k, j - 1) || (t == k && l == j - 1);
    }
  }

  lemma StartedFrame(n: Net, s: nat, i: nat, k: nat)
    requires Arrivals(n) && 0 < k < |n.run| && Accepted(n, k) && Index(n, k - 1) + 1 == Index(n, k)
    ensures StartedAt(n, s, i, k, 0) <==> StartedAt(n, s, i, k - 1, Size(n, k - 1))
  {
    hide Accepted, Followed;
    if s < k {
      FollowedStep(n, k, k - s);
    }
    assert forall t: nat, l: nat :: t < |n.run| && l < Size(n, t) ==> (Precedes(t, l, k, 0) <==> Precedes(t, l, k - 1, Size(n, k - 1)));
  }

  /** A cycle is followed iff some SnapshotStart opened it, all frames since were accepted, and no SnapshotEnd came. */
  lemma {:induction false} FollowingIff(n: Net, k: nat, j: nat)
    requires Fair(n) && IsMoment(n, k, j) && Accepted(n, k)
    ensures Following(n, k, j) <==> StartedBefore(n, k, j)
    decreases k, j
  {
    hide StartedAt, Accepted, Legal, NoUnnoticedGap;
    if j > 0 {
      FollowingIff(n, k, j - 1);
      StartedThere(n, k, j);
    } else if k > 0 && Accepted(n, k - 1) {
      FollowingIff(n, k - 1, Size(n, k - 1));
      AcceptedIsNext(n, k - 1, k);
      StartedEarlier(n, k);
    } else {
      forall s: nat, i: nat
        ensures !StartedAt(n, s, i, k, 0)
      {
        NotStarted(n, s, i, k);
      }
    }
  }

  lemma StartedThere(n: Net, k: nat, j: nat)
    requires Arrivals(n) && IsMoment(n, k, j) && j > 0 && Accepted(n, k)
    ensures var m := MessageAt(n, k, j - 1);
            StartedBefore(n, k, j) <==> m.Start? || (!m.End? && StartedBefore(n, k, j - 1))
  {
    hide StartedAt, Accepted;
    if s: nat, i: nat :| StartedAt(n, s, i, k, j) {
      StartedMessage(n, s, i, k, j);
    }
    StartedMessage(n, k, j - 1, k, j);
    var l := j - 1;
    if s: nat, i: nat :| StartedAt(n, s, i, k, l) {
      StartedMessage(n, s, i, k, j);
    }
  }

  lemma StartedEarlier(n: Net, k: nat)
    requires Arrivals(n) && 0 < k < |n.run| && Accepted(n, k) && Index(n, k - 1) + 1 == Index(n, k)
    ensures StartedBefore(n, k, 0) <==> StartedBefore(n, k - 1, Size(n, k - 1))
  {
    hide StartedAt, Accepted;
    if s: nat, i: nat :| StartedAt(n, s, i, k, 0) {
      StartedFrame(n, s, i, k);
    }
    var l, e := k - 1, Size(n, k - 1);
    if s: nat, i: nat :| StartedAt(n, s, i, l, e) {
      StartedFrame(n, s, i, k);
    }
  }

  lemma NotStarted(n: Net, s: nat, i: nat, k: nat)
    requires Arrivals(n) && k < |n.run| && (k > 0 ==> !Accepted(n, k - 1))
    ensures !StartedAt(n, s, i, k, 0)
  {
    if s < k {
      FollowedNeedsPrevious(n, k, k - s);
    }
  }

  lemma FollowedNeedsPrevious(n: Net, k: nat, d: nat)
    requires 0 < d
    ensures Followed(n, k, d) ==> k > 0 && Accepted(n, k - 1)
  {
    if Followed(n, k, d) {
      FollowedNeedsThePrevious(n, k, d);
    }
  }
}
