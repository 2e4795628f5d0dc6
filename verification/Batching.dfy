/**
 Splitting a list of symbols into requests of limited size
 (src/roq/deribit/gateway/market_data.cpp:812-888).
 */
module Batching {
  import opened Words

  /** The limit of one request; a setting of 0 means all symbols at once. */
  function MaxSize(setting: nat, symbols: seq<string>): nat {
    if setting != 0 then setting else |symbols|
  }

  function Batches(symbols: seq<string>, max: nat): seq<seq<string>>
    requires symbols != [] ==> max > 0
  {
    if symbols == [] then []
    else if |symbols| <= max then [symbols]
    else [symbols[..max]] + Batches(symbols[max..], max)
  }

  /** Every batch is non-empty and within the limit, and all but the last are full. */
  predicate WellSized(batches: seq<seq<string>>, max: nat) {
    && (forall k: nat :: k < |batches| ==> 1 <= |batches[k]| <= max)
    && (forall k: nat :: k < |batches| - 1 ==> |batches[k]| == max)
  }

  /** The batches partition the list, and are as few as the limit allows. */
  lemma {:induction false} BatchesPartition(symbols: seq<string>, max: nat)
    requires max > 0
    ensures var b := Batches(symbols, max);
            && Flatten(b) == symbols
            && WellSized(b, max)
            && |b| == (|symbols| + max - 1) / max
    decreases |symbols|
  {
    if symbols != [] {
      if |symbols| <= max {
        assert Flatten([symbols]) == symbols + Flatten([]);
        assert (|symbols| + max - 1) / max == 1 by { OneBatch(|symbols|, max); }
      } else {
        var rest := symbols[max..];
        BatchesPartition(rest, max);
        var b := Batches(rest, max);
        assert ([symbols[..max]] + b)[1..] == b;
        assert symbols == symbols[..max] + rest;
        OneBatchMore(|rest|, max);
      }
    }
  }

  lemma OneBatch(n: nat, max: nat)
    requires 0 < n <= max
    ensures (n + max - 1) / max == 1
  {
    assert n + max - 1 == max + (n - 1);
  }

  lemma OneBatchMore(n: nat, max: nat)
    requires max > 0
    ensures (n + max + max - 1) / max == (n + max - 1) / max + 1
  {
    var x := n + max - 1;
    QuotientIs(x + max, max, x / max + 1, x % max);
  }

  lemma QuotientIs(x: int, max: nat, q: int, r: nat)
    requires r < max && x == max * q + r
    ensures x / max == q
  {
    var d, s := x / max, x % max;
    assert max * (d - q) == r - s;
    if d > q {
      AtLeast(max, d - q);
    } else if d < q {
      AtLeast(max, q - d);
    }
  }

  lemma AtLeast(max: nat, d: nat)
    requires d >= 1
    ensures max * d >= max
  {
  }

  /** No other split into full batches with a shorter last one exists. */
  lemma {:induction false} BatchesAreUnique(batches: seq<seq<string>>, max: nat)
    requires max > 0 && WellSized(batches, max)
    ensures batches == Batches(Flatten(batches), max)
  {
    if batches != [] {
      var rest := batches[1..];
      assert WellSized(rest, max);
      BatchesAreUnique(rest, max);
      var symbols := Flatten(batches);
      assert symbols == batches[0] + Flatten(rest);
      if rest == [] {
        assert Flatten(rest) == [] && symbols == batches[0];
        assert batches == [symbols];
      } else {
        assert |Flatten(rest)| >= |rest[0]| > 0;
        assert symbols[..max] == batches[0] && symbols[max..] == Flatten(rest);
        assert batches == [batches[0]] + rest;
      }
    }
  }

  /** How the loop advances: the batches of a tail that is not yet empty. */
  lemma NextBatch(symbols: seq<string>, offset: nat, max: nat)
    requires max > 0 && offset < |symbols|
    ensures var length := if |symbols| - offset <= max then |symbols| - offset else max;
            var next := if offset + max <= |symbols| then offset + max else |symbols|;
            Batches(symbols[offset..], max) == [symbols[offset..offset + length]] + Batches(symbols[next..], max)
  {
    var tail := symbols[offset..];
    if |tail| <= max {
      assert symbols[offset..offset + |tail|] == tail;
      assert Batches(symbols[|symbols|..], max) == [];
      assert offset + max <= |symbols| ==> offset + max == |symbols|;
    } else {
      assert tail[max..] == symbols[offset + max..];
      assert tail[..max] == symbols[offset..offset + max];
    }
  }
}
