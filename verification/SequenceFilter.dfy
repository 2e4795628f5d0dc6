/**
 The filter in front of trades and tickers (src/roq/deribit/gateway/udp_events.cpp,
 `test_sequence`): per instrument, a message passes if its frame number is larger than the
 last one that passed, or looks like the 32-bit counter wrapped around.
 */
module SequenceFilter {
  import opened Words

  /** `n` is taken to come after `previous`. */
  predicate Follows(previous: uint32, n: uint32) {
    previous < n || n < TWO_TO_THE_31 < previous
  }

  type Cache = map<uint32, uint32>

  predicate Passes(cache: Cache, instrumentId: uint32, n: uint32) {
    instrumentId in cache ==> Follows(cache[instrumentId], n)
  }

  function Tested(cache: Cache, instrumentId: uint32, n: uint32): Cache {
    if Passes(cache, instrumentId, n) then cache[instrumentId := n] else cache
  }

  class Filter {
    var cache: Cache

    constructor ()
      ensures cache == map[]
    {
      cache := map[];
    }

    method TestSequence(instrumentId: uint32, n: uint32) returns (result: bool)
      modifies this
      ensures result == Passes(old(cache), instrumentId, n)
      ensures cache == Tested(old(cache), instrumentId, n)
    {
      result := false;
      if instrumentId in cache {
        var previous := cache[instrumentId];
        if previous < n {
          result := true;
        } else if n < TWO_TO_THE_31 && TWO_TO_THE_31 < previous {
          result := true;
        }
      } else {
        cache := cache[instrumentId := n];
        result := true;
      }
      if result {
        cache := cache[instrumentId := n];
      }
    }
  }

  // Runs: the messages of all instruments, in the order received

  datatype Message = Message(instrumentId: uint32, number: uint32)

  function CacheAfter(run: seq<Message>): Cache {
    if run == [] then map[] else
      var n := |run| - 1;
      Tested(CacheAfter(run[..n]), run[n].instrumentId, run[n].number)
  }

  /** The numbers of one instrument, in order. */
  function Received(run: seq<Message>, instrumentId: uint32): seq<uint32> {
    if run == [] then [] else
      var n := |run| - 1;
      Received(run[..n], instrumentId) + (if run[n].instrumentId == instrumentId then [run[n].number] else [])
  }

  /** Those that passed. */
  function Passed(run: seq<Message>, instrumentId: uint32): seq<uint32> {
    if run == [] then [] else
      var n := |run| - 1;
      Passed(run[..n], instrumentId)
      + (if run[n].instrumentId == instrumentId && Passes(CacheAfter(run[..n]), instrumentId, run[n].number)
         then [run[n].number] else [])
  }

  predicate Chained(numbers: seq<uint32>) {
    forall k: nat :: k + 1 < |numbers| ==> Follows(numbers[k], numbers[k + 1])
  }

  /** The cache remembers the last number that passed, and what passed follows link by link. */
  lemma {:induction false} PassedIsChained(run: seq<Message>, g: uint32)
    ensures var passed := Passed(run, g);
            && Chained(passed)
            && (g in CacheAfter(run) <==> passed != [])
            && (g in CacheAfter(run) ==> CacheAfter(run)[g] == passed[|passed| - 1])
  {
    if run != [] {
      PassedIsChained(run[..|run| - 1], g);
    }
  }

  // Unfolding: one more epoch each time the numbers wrap around

  function Epoch(numbers: seq<uint32>): nat {
    if |numbers| <= 1 then 0 else
      var n := |numbers| - 1;
      Epoch(numbers[..n]) + (if numbers[n] < numbers[n - 1] then 1 else 0)
  }

  function Unfolded(numbers: seq<uint32>, k: nat): nat
    requires k < |numbers|
  {
    Epoch(numbers[..k + 1]) * TWO_TO_THE_32 + numbers[k]
  }

  lemma UnfoldedStep(numbers: seq<uint32>, k: nat)
    requires k + 1 < |numbers|
    ensures Unfolded(numbers, k + 1) - Unfolded(numbers, k)
         == numbers[k + 1] - numbers[k] + if numbers[k + 1] < numbers[k] then TWO_TO_THE_32 else 0
  {
    assert numbers[..k + 2][..k + 1] == numbers[..k + 1];
  }

  /** What passed for an instrument unfolds to a strictly increasing sequence. */
  lemma {:induction false} PassedUnfoldsIncreasing(run: seq<Message>, g: uint32, i: nat, j: nat)
    requires i < j < |Passed(run, g)|
    ensures Unfolded(Passed(run, g), i) < Unfolded(Passed(run, g), j)
    decreases j
  {
    var passed := Passed(run, g);
    PassedIsChained(run, g);
    assert Follows(passed[j - 1], passed[j]);
    UnfoldedStep(passed, j - 1);
    if i < j - 1 {
      PassedUnfoldsIncreasing(run, g, i, j - 1);
    }
  }

  /** Counters that rise by 1 to 2^31 - 1 per message. */
  predicate Steady(counters: seq<nat>) {
    forall k: nat :: k + 1 < |counters| ==> 1 <= counters[k + 1] - counters[k] < TWO_TO_THE_31
  }

  function Wrapped(counters: seq<nat>): seq<uint32> {
    seq(|counters|, k requires 0 <= k < |counters| => counters[k] % TWO_TO_THE_32)
  }

  lemma SteadyStepFollows(c: nat, d: nat)
    requires 1 <= d - c < TWO_TO_THE_31
    ensures Follows(c % TWO_TO_THE_32, d % TWO_TO_THE_32)
    ensures d % TWO_TO_THE_32 - c % TWO_TO_THE_32 + (if d % TWO_TO_THE_32 < c % TWO_TO_THE_32 then TWO_TO_THE_32 else 0) == d - c
  {
    assert d % TWO_TO_THE_32 == (c % TWO_TO_THE_32 + (d - c)) % TWO_TO_THE_32;
  }

  /** With steady counters every message of the instrument passes, whatever other instruments do. */
  lemma {:induction false} SteadyAllPass(run: seq<Message>, g: uint32, counters: seq<nat>)
    requires Steady(counters) && Received(run, g) == Wrapped(counters)
    ensures Passed(run, g) == Received(run, g)
  {
    if run != [] {
      var n := |run| - 1;
      var front := run[..n];
      if run[n].instrumentId == g {
        var m := |counters| - 1;
        assert |Wrapped(counters)| == |counters| == |Received(front, g)| + 1;
        assert Received(front, g) == Wrapped(counters)[..m] == Wrapped(counters[..m]);
        SteadyAllPass(front, g, counters[..m]);
        PassedIsChained(front, g);
        if m > 0 {
          SteadyStepFollows(counters[m - 1], counters[m]);
          assert run[n].number == Wrapped(counters)[m];
          assert CacheAfter(front)[g] == Received(front, g)[m - 1];
        }
      } else {
        SteadyAllPass(front, g, counters);
      }
    }
  }

  /** And the unfolding gives back the counters, up to the epoch of the first one. */
  lemma {:induction false} SteadyUnfoldsToCounters(counters: seq<nat>, k: nat)
    requires Steady(counters) && k < |counters|
    ensures Unfolded(Wrapped(counters), k) == counters[k] - counters[0] / TWO_TO_THE_32 * TWO_TO_THE_32
  {
    if k > 0 {
      SteadyUnfoldsToCounters(counters, k - 1);
      UnfoldedStep(Wrapped(counters), k - 1);
      SteadyStepFollows(counters[k - 1], counters[k]);
    }
  }

  /** 2^31 - 1 is the largest rise that always passes. */
  lemma {:induction false} LargestSteadyRise(rise: nat)
    requires 1 <= rise < TWO_TO_THE_32
    ensures (forall c: nat :: Follows(c % TWO_TO_THE_32, (c + rise) % TWO_TO_THE_32)) <==> rise < TWO_TO_THE_31
  {
    if rise < TWO_TO_THE_31 {
      forall c: nat
        ensures Follows(c % TWO_TO_THE_32, (c + rise) % TWO_TO_THE_32)
      {
        SteadyStepFollows(c, c + rise);
      }
    } else {
      var c := TWO_TO_THE_32 - rise;
      assert (c + rise) % TWO_TO_THE_32 == 0;
      assert !Follows(c % TWO_TO_THE_32, (c + rise) % TWO_TO_THE_32);
    }
  }

  /** Testing the same number again fails, whether or not it passed before. */
  lemma {:induction false} RepeatIsRefused(cache: Cache, g: uint32, n: uint32)
    ensures !Passes(Tested(cache, g, n), g, n)
  {
  }

  /** A number older than the last one passes exactly when the two straddle a wrap-around or the midpoint 2^31. */
  lemma {:induction false} StalePassesIff(older: nat, newer: nat)
    requires older < newer < older + TWO_TO_THE_32
    ensures Follows(newer % TWO_TO_THE_32, older % TWO_TO_THE_32) <==>
            (older / TWO_TO_THE_32 != newer / TWO_TO_THE_32
             || older % TWO_TO_THE_32 < TWO_TO_THE_31 < newer % TWO_TO_THE_32)
  {
    if older / TWO_TO_THE_32 == newer / TWO_TO_THE_32 {
      assert older % TWO_TO_THE_32 < newer % TWO_TO_THE_32;
    } else {
      assert newer / TWO_TO_THE_32 == older / TWO_TO_THE_32 + 1;
      assert newer % TWO_TO_THE_32 < older % TWO_TO_THE_32;
    }
  }
}
