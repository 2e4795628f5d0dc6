/**
 The snapshot receiver (src/roq/deribit/gateway/udp_snapshot.cpp): what one frame and one
 message do, as functions on the channel state and as methods on the shared state.
 */
module UdpSnapshot {
  import opened Words
  import opened Channels
  import opened Books
  import opened SharedState

  // One Snapshot message of an instrument that is known and not discarded

  function Collect(s: ChannelState, f: Fragment, multiplier: real, sequencerReady: bool): ChannelState {
    if s.ready && !sequencerReady then WithLevels(s, f.levels, multiplier) else s
  }

  function OnServed(s: ChannelState, f: Fragment, multiplier: real, sequencerReady: bool): Effect {
    var c := Collect(s, f, multiplier, sequencerReady);
    if f.isLast then
      Effect(WithoutBook(c),
             if c.ready && !(c.bids == [] && c.asks == []) then [SnapshotCall(f.instrumentId, f.changeId, c.bids, c.asks)] else [])
    else
      Effect(if c.instrumentId == 0 then c.(instrumentId := f.instrumentId) else c, [])
  }

  /** One Snapshot message, whatever is known of its instrument. */
  function OnFragment(s: ChannelState, table: Table, f: Fragment, sequencerReady: bool): Effect {
    if Served(table, f.instrumentId) then OnServed(s, f, table[f.instrumentId].multiplier, sequencerReady)
    else Effect(s, [])
  }

  class UDPSnapshot {
    const publishMarketByPrice: bool
    const shared: Shared
    const channels: ChannelMap

    constructor (publishMarketByPrice: bool, shared: Shared)
      ensures this.publishMarketByPrice == publishMarketByPrice && this.shared == shared
      ensures fresh(channels) && channels.Valid() && channels.channels == map[]
    {
      this.publishMarketByPrice := publishMarketByPrice;
      this.shared := shared;
      channels := new ChannelMap();
    }

    method OnFrame(id: uint16, n: uint32) returns (result: bool)
      requires channels.Valid()
      modifies channels, channels.channels.Values
      ensures channels.Valid()
      ensures result == Accepts(old(channels.StateOf(id)), n)
      ensures channels.StateOf(id) == Gate(old(channels.StateOf(id)), n)
      ensures forall k :: k != id ==> channels.StateOf(k) == old(channels.StateOf(k))
    {
      var channel := channels.Get(id);
      result := channel.Receive(n);
      if !result {
        channel.Reset();
      }
    }

    method OnSnapshotStart(id: uint16)
      requires channels.Valid()
      modifies channels, channels.channels.Values
      ensures channels.Valid()
      ensures channels.StateOf(id) == old(channels.StateOf(id)).(ready := true)
      ensures forall k :: k != id ==> channels.StateOf(k) == old(channels.StateOf(k))
    {
      var channel := channels.Get(id);
      channel.SnapshotStart();
    }

    method OnSnapshotEnd(id: uint16)
      requires channels.Valid()
      modifies channels, channels.channels.Values
      ensures channels.Valid()
      ensures channels.StateOf(id) == old(channels.StateOf(id)).(ready := false)
      ensures forall k :: k != id ==> channels.StateOf(k) == old(channels.StateOf(k))
    {
      var channel := channels.Get(id);
      channel.SnapshotEnd();
    }

    /** One Snapshot message does to channel and sequencers what `OnFragment` says, and nothing else. */
    method OnSnapshot(id: uint16, f: Fragment, readyAfter: bool)
      requires channels.Valid()
      modifies channels, channels.channels.Values, shared`calls, shared`sequencersReady
      ensures channels.Valid()
      ensures forall k :: k != id ==> channels.StateOf(k) == old(channels.StateOf(k))
      ensures var before := old(channels.StateOf(id));
              var effect := if publishMarketByPrice
                            then OnFragment(before, shared.instruments, f, f.instrumentId in old(shared.sequencersReady))
                            else Effect(before, []);
              channels.StateOf(id) == effect.channel && shared.calls == old(shared.calls) + effect.calls
      ensures forall i :: i != f.instrumentId ==> (i in shared.sequencersReady <==> i in old(shared.sequencersReady))
      ensures shared.calls == old(shared.calls) ==> shared.sequencersReady == old(shared.sequencersReady)
    {
      if !publishMarketByPrice {
        return;
      }
      var channel := channels.Get(id);
      var found, served := shared.FindInstrument(f.instrumentId);
      if served.Some? {
        OnServedSnapshot(channel, f, served.value.multiplier, readyAfter);
      }
    }

    method OnServedSnapshot(channel: Channel, f: Fragment, multiplier: real, readyAfter: bool)
      modifies channel, shared`calls, shared`sequencersReady
      ensures var effect := OnServed(old(channel.State()), f, multiplier, f.instrumentId in old(shared.sequencersReady));
              channel.State() == effect.channel && shared.calls == old(shared.calls) + effect.calls
      ensures forall i :: i != f.instrumentId ==> (i in shared.sequencersReady <==> i in old(shared.sequencersReady))
      ensures shared.calls == old(shared.calls) ==> shared.sequencersReady == old(shared.sequencersReady)
    {
      hide IsSide, Scaled;
      if channel.ready && f.instrumentId !in shared.sequencersReady {
        channel.Append(f.levels, multiplier);
      }
      if !f.isLast {
        if channel.instrumentId == 0 {
          channel.instrumentId := f.instrumentId;
        }
        return;
      }
      if channel.ready && !(channel.bids == [] && channel.asks == []) {
        shared.CallSequencer(SnapshotCall(f.instrumentId, f.changeId, channel.bids, channel.asks), readyAfter);
      }
      channel.ClearBook();
    }
  }
}
