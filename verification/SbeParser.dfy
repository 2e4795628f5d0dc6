/**
 The cursor over a message body and the datagram loop
 (src/roq/deribit/protocol/sbe/utils.hpp and parser.cpp).
 */
module SbeParser {
  import opened Words
  import opened SbeFormat

  /** A message body with a reading position, as the generated codecs have it. */
  class Flyweight {
    const schema: Schema
    const template: Template
    const buffer: bytes
    var position: nat

    constructor (schema: Schema, template: Template, buffer: bytes)
      ensures this.schema == schema && this.template == template && this.buffer == buffer
      ensures position == schema.Root(template)
    {
      this.schema, this.template, this.buffer := schema, template, buffer;
      position := schema.Root(template);
    }

    method SbeRewind()
      modifies this
      ensures position == schema.Root(template)
    {
      position := schema.Root(template);
    }

    /** Reads the group header at the cursor and moves behind it. */
    method OpenGroup() returns (group: Option<Group>)
      modifies this
      ensures group == ReadGroup(buffer, old(position))
      ensures position == old(position) + if group.Some? then GROUP_HEADER_SIZE else 0
    {
      group := ReadGroup(buffer, position);
      if group.Some? {
        position := position + GROUP_HEADER_SIZE;
      }
    }

    /** Moves the cursor over all entries, one by one, and counts them; fails if one is cut off. */
    method ForEach(group: Group) returns (count: Option<nat>)
      requires position <= |buffer|
      modifies this
      ensures count == if old(position) + group.count * group.blockLength <= |buffer| then Some(group.count) else None
      ensures count.Some? ==> position == old(position) + group.count * group.blockLength
    {
      var i: nat := 0;
      while i < group.count
        invariant i <= group.count
        invariant position == old(position) + i * group.blockLength <= |buffer|
      {
        OneMore(i, group.blockLength);
        if |buffer| < position + group.blockLength {
          MoreIsMore(i + 1, group.count, group.blockLength);
          return None;
        }
        position := position + group.blockLength;
        i := i + 1;
      }
      count := Some(i);
    }

    /** The length byte at the cursor. */
    method NameLength() returns (length: Option<nat>)
      ensures length == if position < |buffer| then Some(buffer[position] as nat) else None
    {
      length := if position < |buffer| then Some(buffer[position] as nat) else None;
    }

    /** The name at the cursor; moves behind it. */
    method Name() returns (name: Option<bytes>)
      modifies this
      ensures name.Some? <==> old(position) < |buffer| && old(position) + 1 + buffer[old(position)] <= |buffer|
      ensures name.Some? ==> name.value == buffer[old(position) + 1..old(position) + 1 + buffer[old(position)]]
      ensures position == old(position) + if name.Some? then 1 + |name.value| else 0
    {
      name := None;
      if position < |buffer| && position + 1 + buffer[position] <= |buffer| {
        var end := position + 1 + buffer[position];
        name := Some(buffer[position + 1..end]);
        position := end;
      }
    }

    // One method for each way of computing a length, from the cursor of a freshly wrapped body

    method ComputeLengthCounted() returns (length: Option<nat>)
      requires position == schema.Root(template)
      requires template.Book? || template.ComboLegs? || template.Trades?
      modifies this
      ensures length == ComputeLength(schema, template, buffer)
    {
      var group := OpenGroup();
      if group.None? {
        return None;
      }
      length := Some(schema.Root(template) + GROUP_HEADER_SIZE + group.value.count * schema.Entry(template));
    }

    method ComputeLengthSnapshot() returns (length: Option<nat>)
      requires position == schema.Root(template) && template.Snapshot?
      modifies this
      ensures length == ComputeLength(schema, template, buffer)
    {
      var group := OpenGroup();
      if group.None? {
        return None;
      }
      SbeRewind();
      var again := OpenGroup();
      var count := ForEach(again.value);
      if count.None? {
        return None;
      }
      length := Some(schema.Root(template) + GROUP_HEADER_SIZE + group.value.count * schema.Entry(template));
    }

    method ComputeLengthInstrument() returns (length: Option<nat>)
      requires position == schema.Root(template) && template.Instrument?
      ensures length == ComputeLength(schema, template, buffer)
    {
      var name := NameLength();
      if name.None? {
        return None;
      }
      length := Some(schema.Root(template) + 1 + name.value);
    }

    method ComputeLengthInstrumentV2() returns (length: Option<nat>)
      requires template.InstrumentV2?
      modifies this
      ensures length == ComputeLength(schema, template, buffer)
    {
      SbeRewind();
      var group := OpenGroup();
      if group.None? {
        return None;
      }
      var count := ForEach(group.value);
      if count.None? {
        return None;
      }
      var name := NameLength();
      if name.None? {
        return None;
      }
      length := Some(schema.Root(template) + GROUP_HEADER_SIZE + count.value * schema.Entry(template) + 1 + name.value);
    }

    method ComputeAnyLength() returns (length: Option<nat>)
      requires position == schema.Root(template)
      modifies this
      ensures length == ComputeLength(schema, template, buffer)
    {
      match template {
        case Book | ComboLegs | Trades => length := ComputeLengthCounted();
        case Snapshot => length := ComputeLengthSnapshot();
        case Instrument => length := ComputeLengthInstrument();
        case InstrumentV2 => length := ComputeLengthInstrumentV2();
        case _ => length := Some(schema.Root(template));
      }
    }

    /** Rewinds, walks over the group if there is one, and reads the name. */
    method GetInstrumentName() returns (name: Option<bytes>)
      requires HasName(template)
      modifies this
      ensures name == NameOf(schema, template, buffer)
    {
      SbeRewind();
      if template.InstrumentV2? {
        var group := OpenGroup();
        if group.None? {
          return None;
        }
        var count := ForEach(group.value);
        if count.None? {
          return None;
        }
      }
      name := Name();
    }
  }

  lemma MoreIsMore(i: nat, j: nat, n: nat)
    requires i <= j
    ensures i * n <= j * n
  {
    assert (j - i) * n >= 0;
  }

  /** What a receiver of datagrams does: decide on frames, take messages. */
  class Handler {
    const verdict: Frame -> bool
    var frames: seq<Frame>
    var received: seq<(Option<Message>, Frame)>

    constructor (verdict: Frame -> bool)
      ensures this.verdict == verdict && frames == [] && received == []
    {
      this.verdict := verdict;
      frames, received := [], [];
    }

    method OnFrame(frame: Frame) returns (accept: bool)
      modifies this`frames
      ensures accept == verdict(frame) && frames == old(frames) + [frame]
    {
      frames := frames + [frame];
      accept := verdict(frame);
    }

    /** The message as far as the body holds it; `None` if it is cut short. */
    method OnMessage(message: Option<Message>, frame: Frame)
      modifies this`received
      ensures received == old(received) + [(message, frame)]
    {
      received := received + [(message, frame)];
    }
  }

  function Tagged(messages: seq<Option<Message>>, frame: Frame): seq<(Option<Message>, Frame)> {
    seq(|messages|, k requires 0 <= k < |messages| => (messages[k], frame))
  }

  /** One message off the front of the packet: the handler sees it once its length is computed. */
  method DispatchHelper(s: Schema, t: Template, handler: Handler, body: bytes, frame: Frame) returns (length: Option<nat>)
    modifies handler`received
    ensures length == ComputeLength(s, t, body)
    ensures handler.received == old(handler.received) + if length.Some? then [(View(s, t, body), frame)] else []
  {
    var value := new Flyweight(s, t, body);
    length := value.ComputeAnyLength();
    if length.None? {
      return;
    }
    value.SbeRewind();
    handler.OnMessage(View(s, t, body), frame);
  }

  /**
   The datagram loop: one call with the frame, and if it is accepted one call per message
   while the packet shrinks by the length of each.
   */
  method DispatchDatagram(s: Schema, handler: Handler, buffer: bytes) returns (outcome: Outcome)
    modifies handler
    ensures var frame := ReadFrame(buffer);
            if frame.None? then
              outcome == Truncated && handler.frames == old(handler.frames) && handler.received == old(handler.received)
            else
              && handler.frames == old(handler.frames) + [frame.value]
              && if !handler.verdict(frame.value) then
                   outcome == Refused && handler.received == old(handler.received)
                 else
                   var d := Dispatch(s, buffer[FRAME_SIZE..]);
                   outcome == d.outcome && handler.received == old(handler.received) + Tagged(d.messages, frame.value)
  {
    hide View, ComputeLength;
    var parsed := ReadFrame(buffer);
    if parsed.None? {
      return Truncated;
    }
    var frame := parsed.value;
    var accept := handler.OnFrame(frame);
    if !accept {
      return Refused;
    }
    var packet := buffer[FRAME_SIZE..];
    ghost var done: seq<Option<Message>> := [];
    while packet != []
      invariant handler.frames == old(handler.frames) + [frame]
      invariant handler.received == old(handler.received) + Tagged(done, frame)
      invariant Dispatch(s, buffer[FRAME_SIZE..]).messages == done + Dispatch(s, packet).messages
      invariant Dispatch(s, buffer[FRAME_SIZE..]).outcome == Dispatch(s, packet).outcome
      decreases |packet|
    {
      if |packet| < HEADER_SIZE {
        assert done + [] == done;
        return Truncated;
      }
      var template := TemplateOf(ReadU16(packet, 2));
      if template.None? {
        assert done + [] == done;
        return UnknownTemplate(ReadU16(packet, 2));
      }
      var length := DispatchHelper(s, template.value, handler, packet[HEADER_SIZE..], frame);
      if length.None? {
        assert done + [] == done;
        return Truncated;
      }
      ghost var next := ReadNext(s, packet).value;
      assert Tagged(done + [next.message], frame) == Tagged(done, frame) + [(next.message, frame)];
      if View(s, template.value, packet[HEADER_SIZE..]).None? || |packet| < HEADER_SIZE + length.value {
        return Truncated;
      }
      DispatchOne(s, packet, next.message.value, next.bytes);
      Assoc(done, [next.message], Dispatch(s, packet[next.bytes..]).messages);
      done := done + [next.message];
      packet := packet[HEADER_SIZE + length.value..];
    }
    assert done + [] == done;
    outcome := Done;
  }

  /**
   SBE round trip. An encoded datagram reaches the handler as its frame, once, and if the
   frame is accepted as exactly the messages that were encoded, in order; every byte is used.
   */
  method DispatchEncoded(s: Schema, handler: Handler, frame: Frame, items: seq<Item>) returns (outcome: Outcome)
    requires forall i :: i in items ==> WellFormed(s, i.message)
    modifies handler
    ensures handler.frames == old(handler.frames) + [frame]
    ensures outcome == if handler.verdict(frame) then Done else Refused
    ensures handler.received == old(handler.received)
                                + if handler.verdict(frame) then Tagged(MessagesOf(items), frame) else []
  {
    DatagramRoundTrip(s, frame, items);
    outcome := DispatchDatagram(s, handler, Datagram(s, frame, items));
  }

  lemma {:induction false} DatagramRoundTrip(s: Schema, frame: Frame, items: seq<Item>)
    requires forall i :: i in items ==> WellFormed(s, i.message)
    ensures var b := Datagram(s, frame, items);
            && ReadFrame(b) == Some(frame)
            && |b| >= FRAME_SIZE
            && Dispatch(s, b[FRAME_SIZE..]) == Dispatched(MessagesOf(items), Done)
  {
    FrameRoundTrip(frame, PacketBytes(s, items));
    PacketRoundTrip(s, items);
    assert Datagram(s, frame, items)[FRAME_SIZE..] == PacketBytes(s, items);
  }
}
