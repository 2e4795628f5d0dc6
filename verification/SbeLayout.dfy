/**
 Where the numbers of a datagram are, byte by byte and without the encoder: little-endian fields at
 fixed offsets (src/roq/deribit/protocol/sbe/frame.cpp), template ids and block lengths, and what the
 two kinds of datagrams that the exchange sends look like (test/sbe_parser.cpp:19-99, 221-347).
 */
module SbeLayout {
  import opened Words
  import opened SbeFormat

  // Fields at their offsets

  /** The frame: two 16-bit fields and a 32-bit one, the least significant byte first. */
  lemma {:induction false} FrameFields(b: bytes)
    ensures |b| < 8 ==> ReadFrame(b) == None
    ensures |b| >= 8 ==>
              var frame := ReadFrame(b);
              && frame.Some?
              && frame.value.packetLength == (b[0] as int) + 0x100 * (b[1] as int)
              && frame.value.channelId == (b[2] as int) + 0x100 * (b[3] as int)
              && frame.value.sequenceNumber == (b[4] as int) + 0x100 * (b[5] as int) + 0x1_0000 * (b[6] as int) + 0x100_0000 * (b[7] as int)
  {
  }

  /** The group header: block length and count, in the first four of eight bytes. */
  lemma {:induction false} GroupFields(b: bytes, p: nat)
    ensures |b| < p + 8 ==> ReadGroup(b, p) == None
    ensures |b| >= p + 8 ==>
              var group := ReadGroup(b, p);
              && group.Some?
              && group.value.blockLength == (b[p] as int) + 0x100 * (b[p + 1] as int)
              && group.value.count == (b[p + 2] as int) + 0x100 * (b[p + 3] as int)
  {
  }

  /** The template id is in bytes 2 and 3 of a message header; any other than 1000 to 1010 ends the dispatch. */
  lemma {:induction false} TemplateField(s: Schema, packet: bytes)
    requires |packet| >= 12
    ensures var id := (packet[2] as int) + 0x100 * (packet[3] as int);
            if 1000 <= id <= 1010 then !Dispatch(s, packet).outcome.UnknownTemplate? || Dispatch(s, packet).messages != []
            else Dispatch(s, packet) == Dispatched([], UnknownTemplate(id))
  {
    hide ReadNext;
  }

  lemma {:induction false} TemplatesById()
    ensures TemplateOf(1000) == Some(Instrument) && TemplateOf(1001) == Some(Book) && TemplateOf(1002) == Some(Trades)
    ensures TemplateOf(1003) == Some(Ticker) && TemplateOf(1004) == Some(Snapshot) && TemplateOf(1005) == Some(SnapshotStart)
    ensures TemplateOf(1006) == Some(SnapshotEnd) && TemplateOf(1007) == Some(ComboLegs) && TemplateOf(1008) == Some(PriceIndex)
    ensures TemplateOf(1009) == Some(Rfq) && TemplateOf(1010) == Some(InstrumentV2)
  {
  }

  // Lengths from the bytes

  /** A template without group and name has the length of its root block, whatever the bytes are. */
  lemma {:induction false} FixedLength(s: Schema, t: Template, b: bytes)
    requires t in {PriceIndex, Rfq, SnapshotStart, SnapshotEnd, Ticker}
    ensures ComputeLength(s, t, b) == Some(s.Root(t))
  {
  }

  /** A template with a group and no name: root block, group header, and as many entries as bytes 2 and 3 of it say. */
  lemma {:induction false} CountedLength(s: Schema, t: Template, b: bytes)
    requires t in {Book, ComboLegs, Trades}
    ensures var p := s.Root(t);
            if |b| < p + 8 then ComputeLength(s, t, b) == None
            else ComputeLength(s, t, b) == Some(p + 8 + ((b[p + 2] as int) + 0x100 * (b[p + 3] as int)) * s.Entry(t))
  {
  }

  /** An Instrument: root block, the length byte behind it, and the name. */
  lemma {:induction false} NamedLength(s: Schema, b: bytes)
    ensures if |b| <= 140 then ComputeLength(s, Instrument, b) == None
            else ComputeLength(s, Instrument, b) == Some(140 + 1 + (b[140] as int))
  {
  }

  /** A Snapshot: as counted, but only if all entries are there in the length that the group header gives them. */
  lemma {:induction false} SnapshotLength(s: Schema, b: bytes)
    ensures if |b| < 30 then ComputeLength(s, Snapshot, b) == None
            else
              var length, count := (b[22] as int) + 0x100 * (b[23] as int), (b[24] as int) + 0x100 * (b[25] as int);
              ComputeLength(s, Snapshot, b) == if |b| < 30 + count * length then None else Some(30 + count * 17)
  {
  }

  /** An InstrumentV2: the same, and the name behind the entries. */
  lemma {:induction false} InstrumentV2Length(s: Schema, b: bytes)
    ensures if |b| < 147 then ComputeLength(s, InstrumentV2, b) == None
            else
              var length, count := (b[139] as int) + 0x100 * (b[140] as int), (b[141] as int) + 0x100 * (b[142] as int);
              var p := 147 + count * length;
              p >= 147 && ComputeLength(s, InstrumentV2, b) == if |b| <= p then None else Some(147 + count * 16 + 1 + (b[p] as int))
  {
  }

  // Messages as the exchange sends them

  const TRADES_HEADER: bytes := [0x04, 0x00, 0xea, 0x03, 0x01, 0x00, 0x02, 0x00, 0x01, 0x00, 0x00, 0x00]
  const TICKER_HEADER: bytes := [0x85, 0x00, 0xeb, 0x03, 0x01, 0x00, 0x02, 0x00, 0x00, 0x00, 0x00, 0x00]
  const BOOK_HEADER: bytes := [0x1d, 0x00, 0xe9, 0x03, 0x01, 0x00, 0x02, 0x00, 0x01, 0x00, 0x00, 0x00]
  const INSTRUMENT_V2_HEADER: bytes := [0x8b, 0x00, 0xf2, 0x03, 0x01, 0x00, 0x03, 0x00, 0x01, 0x00, 0x01, 0x00]
  const INSTRUMENT_HEADER: bytes := [0x8c, 0x00, 0xe8, 0x03, 0x01, 0x00, 0x02, 0x00, 0x00, 0x00, 0x01, 0x00]
  const SNAPSHOT_HEADER: bytes := [0x16, 0x00, 0xec, 0x03, 0x01, 0x00, 0x02, 0x00, 0x01, 0x00, 0x00, 0x00]

  /** The templates that the sample datagrams show: header, size of the root block, and size of a group entry. */
  function HeaderOf(t: Template): bytes {
    if t.Trades? then TRADES_HEADER
    else if t.Ticker? then TICKER_HEADER
    else if t.Book? then BOOK_HEADER
    else if t.InstrumentV2? then INSTRUMENT_V2_HEADER
    else if t.Instrument? then INSTRUMENT_HEADER
    else SNAPSHOT_HEADER
  }

  function RootSize(t: Template): nat {
    if t.Trades? then 4
    else if t.Ticker? then 133
    else if t.Book? then 29
    else if t.InstrumentV2? then 139
    else if t.Instrument? then 140
    else 22
  }

  function EntrySize(t: Template): byte {
    if t.Trades? then 0x53 else if t.Book? then 0x12 else if t.InstrumentV2? then 0x10 else 0x11
  }

  predicate HasShownSizes(m: Message) {
    var t := m.template;
    && t in {Trades, Ticker, Book, InstrumentV2, Instrument, Snapshot}
    && |m.root| == RootSize(t)
    && |m.entries| < 0x1_0000 && (forall e :: e in m.entries ==> |e| == EntrySize(t))
    && (t in {Ticker, Instrument} ==> m.entries == [])
    && |m.name| < 0x100 && (t !in {InstrumentV2, Instrument} ==> m.name == [])
  }

  function GroupPart(m: Message): bytes
    requires HasShownSizes(m)
  {
    if m.template in {Ticker, Instrument} then []
    else [EntrySize(m.template), 0x00, |m.entries| % 0x100, |m.entries| / 0x100, 0x00, 0x00, 0x00, 0x00] + Flatten(m.entries)
  }

  function NamePart(m: Message): bytes
    requires HasShownSizes(m)
  {
    if m.template in {InstrumentV2, Instrument} then [|m.name|] + m.name else []
  }

  /** A message in bytes, header included. */
  function AsSent(m: Message): bytes
    requires HasShownSizes(m)
  {
    HeaderOf(m.template) + (m.root + (GroupPart(m) + NamePart(m)))
  }

  function AllAsSent(messages: seq<Message>): bytes
    requires forall m :: m in messages ==> HasShownSizes(m)
  {
    if messages == [] then [] else AsSent(messages[0]) + AllAsSent(messages[1..])
  }

  function VersionOf(t: Template): uint16 {
    if t.InstrumentV2? then 3 else 2
  }

  lemma HeaderParts(s: Schema, item: Item)
    ensures var t, r := item.message.template, s.Root(item.message.template);
            HeaderBytes(s, item)
            == [r % 0x100, r / 0x100, TemplateId(t) % 0x100, TemplateId(t) / 0x100, 1, 0, item.version % 0x100, item.version / 0x100,
                if HasGroup(t) then 1 else 0, 0, if HasName(t) then 1 else 0, 0]
  {
  }

  lemma HeaderAsSent(s: Schema, m: Message)
    requires HasShownSizes(m)
    ensures HeaderBytes(s, Item(VersionOf(m.template), m)) == HeaderOf(m.template)
  {
    hide HeaderBytes;
    HeaderParts(s, Item(VersionOf(m.template), m));
  }

  lemma ShownIsWellFormed(s: Schema, m: Message)
    requires HasShownSizes(m)
    ensures WellFormed(s, m)
  {
  }

  lemma PartsAsSent(s: Schema, m: Message)
    requires HasShownSizes(m) && WellFormed(s, m)
    ensures GroupBytes(s, m) == GroupPart(m) && NameBytes(m) == NamePart(m)
  {
    hide Flatten;
  }

  function ItemsOf(messages: seq<Message>): seq<Item> {
    seq(|messages|, k requires 0 <= k < |messages| => Item(VersionOf(messages[k].template), messages[k]))
  }

  lemma {:induction false} BytesAsSent(s: Schema, messages: seq<Message>)
    requires forall m :: m in messages ==> HasShownSizes(m)
    ensures forall i :: i in ItemsOf(messages) ==> WellFormed(s, i.message)
    ensures PacketBytes(s, ItemsOf(messages)) == AllAsSent(messages)
  {
    hide HeaderBytes, BodyBytes, WellFormed, HasShownSizes, AsSent;
    if messages != [] {
      var m, rest := messages[0], messages[1..];
      BytesAsSent(s, rest);
      MessageAsSent(s, m);
      assert ItemsOf(messages) == [Item(VersionOf(m.template), m)] + ItemsOf(rest);
      assert ItemsOf(messages)[1..] == ItemsOf(rest);
    }
  }

  lemma MessageAsSent(s: Schema, m: Message)
    requires HasShownSizes(m)
    ensures WellFormed(s, m)
    ensures HeaderBytes(s, Item(VersionOf(m.template), m)) + BodyBytes(s, m) == AsSent(m)
  {
    hide HeaderBytes, HeaderOf, GroupBytes, GroupPart, NameBytes, NamePart, WellFormed, HasShownSizes;
    ShownIsWellFormed(s, m);
    HeaderAsSent(s, m);
    PartsAsSent(s, m);
  }

  /**
   Any datagram of messages in these bytes, with any root blocks, entries and names, reads as its messages
   in order and to the last byte. The two sample datagrams are of this kind.
   */
  lemma {:induction false} SentIsDispatched(s: Schema, messages: seq<Message>)
    requires forall m :: m in messages ==> HasShownSizes(m)
    ensures Dispatch(s, AllAsSent(messages))
         == Dispatched(seq(|messages|, k requires 0 <= k < |messages| => Some(messages[k])), Done)
  {
    hide Dispatch, PacketBytes, AllAsSent, HasShownSizes, WellFormed;
    BytesAsSent(s, messages);
    PacketRoundTrip(s, ItemsOf(messages));
    assert MessagesOf(ItemsOf(messages)) == seq(|messages|, k requires 0 <= k < |messages| => Some(messages[k]));
  }

  /** The frames of the two sample datagrams. */
  lemma {:induction false} FramesAsSent(packet: bytes)
    ensures ReadFrame([0x3f, 0x01, 0x01, 0x00, 0x6e, 0x0e, 0x06, 0x03] + packet) == Some(Frame(319, 1, 50728558))
    ensures ReadFrame([0xa4, 0x05, 0x65, 0x00, 0xb2, 0x71, 0x02, 0x00] + packet) == Some(Frame(1444, 101, 160178))
  {
    FrameFields([0x3f, 0x01, 0x01, 0x00, 0x6e, 0x0e, 0x06, 0x03] + packet);
    FrameFields([0xa4, 0x05, 0x65, 0x00, 0xb2, 0x71, 0x02, 0x00] + packet);
  }
}
