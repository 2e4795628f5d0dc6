/**
 One instrument, one bid a fragment: the parts that small example runs of the receivers are made of.
 */
module OneInstrument {
  import opened Channels
  import opened Books
  import opened Network

  function OneBid(price: real, isLast: bool): Fragment {
    Fragment(7, 4, 5, isLast, [Level(Buy, price, 1.0)])
  }

  /** The instrument is defined and its sequencer not ready. */
  const KNOWN := Surroundings(map[7 := Instrument("BTC", 1.0, false)], {})

  lemma KnownStaysKnown()
    ensures KNOWN.defined + map[] == KNOWN.defined && KNOWN.defined + KNOWN.defined == KNOWN.defined
  {
  }

  lemma BidIsScaled(s: ChannelState, price: real, isLast: bool)
    ensures WithLevels(s, OneBid(price, isLast).levels, 1.0) == s.(bids := s.bids + [MBPUpdate(price, 1.0)])
  {
    var levels := OneBid(price, isLast).levels;
    assert Scaled(levels[1..], Buy, 1.0) == [] && Scaled(levels[1..], Sell, 1.0) == [];
    assert s.asks + [] == s.asks;
  }
}
