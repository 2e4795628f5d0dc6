/**
 What both multicast receivers share (src/roq/deribit/gateway/shared.hpp): the
 instrument table, and the sequencers behind it as far as they can be observed.
 */
module SharedState {
  import opened Words
  import opened Channels
  import opened Books

  /** One call of an instrument's sequencer. */
  datatype SequencerCall =
    | SnapshotCall(instrumentId: uint32, changeId: nat, bids: seq<MBPUpdate>, asks: seq<MBPUpdate>)
    | UpdateCall(instrumentId: uint32, prevChangeId: nat, changeId: nat, bids: seq<MBPUpdate>, asks: seq<MBPUpdate>)

  /** What one message does to its channel and to the sequencers. */
  datatype Effect = Effect(channel: ChannelState, calls: seq<SequencerCall>)

  class Shared {
    var instruments: Table
    var sequencersReady: set<uint32>
    var calls: seq<SequencerCall>

    constructor ()
      ensures instruments == map[] && sequencersReady == {} && calls == []
    {
      instruments, sequencersReady, calls := map[], {}, [];
    }

    /** Hands out the instrument unless it is unknown or discarded; `found` only says that it is known. */
    method FindInstrument(instrumentId: uint32) returns (found: bool, instrument: Option<Instrument>)
      ensures found <==> instrumentId in instruments
      ensures instrument.Some? <==> Served(instruments, instrumentId)
      ensures instrument.Some? ==> instrument.value == instruments[instrumentId]
    {
      instrument := None;
      if instrumentId in instruments {
        if !instruments[instrumentId].discard {
          instrument := Some(instruments[instrumentId]);
        }
        return true, instrument;
      }
      found := false;
    }

    /** The first definition of an instrument stays; all others do too. */
    method MaybeCreateInstrument(instrumentId: uint32, instrument: Instrument)
      modifies this`instruments
      ensures Extends(old(instruments), instruments)
      ensures instruments.Keys == old(instruments).Keys + {instrumentId}
      ensures instrumentId !in old(instruments) ==> instruments[instrumentId] == instrument
      ensures instruments == map[instrumentId := instrument] + old(instruments)
    {
      if instrumentId in instruments {
        return;
      }
      instruments := instruments[instrumentId := instrument];
    }

    /** The sequencer keeps its own counsel about being ready afterwards. */
    method CallSequencer(call: SequencerCall, readyAfter: bool)
      modifies this`calls, this`sequencersReady
      ensures calls == old(calls) + [call]
      ensures forall id :: id != call.instrumentId ==> (id in sequencersReady <==> id in old(sequencersReady))
      ensures call.instrumentId in sequencersReady <==> readyAfter
    {
      calls := calls + [call];
      sequencersReady := if readyAfter then sequencersReady + {call.instrumentId}
                         else sequencersReady - {call.instrumentId};
    }
  }

  /** The map of channels that each receiver owns; a channel is created when first asked for. */
  class ChannelMap {
    var channels: map<uint16, Channel>

    ghost predicate Valid()
      reads this
    {
      forall k, l :: k in channels && l in channels && k != l ==> channels[k] != channels[l]
    }

    function StateOf(id: uint16): ChannelState
      reads this, channels.Values
    {
      if id in channels then channels[id].State() else FRESH
    }

    constructor ()
      ensures Valid() && channels == map[]
    {
      channels := map[];
    }

    method Get(id: uint16) returns (channel: Channel)
      requires Valid()
      modifies this
      ensures Valid() && id in channels && channels[id] == channel
      ensures id in old(channels) ==> channels == old(channels)
      ensures id !in old(channels) ==> channels == old(channels)[id := channel] && fresh(channel)
      ensures forall k :: StateOf(k) == old(StateOf(k))
    {
      if id !in channels {
        var created := new Channel();
        channels := channels[id := created];
      }
      channel := channels[id];
    }
  }
}
