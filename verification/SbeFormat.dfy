/**
 The byte layout of a multicast datagram: an 8-byte frame, then messages back to back.
 Each message is a 12-byte header and a body of up to three parts (section 3, "Message
 Structure", of FIX Simple Binary Encoding 1.0): the fixed root block, one repeating
 group, and one piece of variable data, the instrument name. All numbers are little-endian.
 */
module SbeFormat {
  import opened Words

  type bytes = seq<byte>

  datatype Frame = Frame(packetLength: uint16, channelId: uint16, sequenceNumber: uint32)

  datatype Template =
    | Instrument | Book | Trades | Ticker | Snapshot | SnapshotStart | SnapshotEnd
    | ComboLegs | PriceIndex | Rfq | InstrumentV2

  function TemplateId(t: Template): uint16 {
    match t
    case Instrument => 1000
    case Book => 1001
    case Trades => 1002
    case Ticker => 1003
    case Snapshot => 1004
    case SnapshotStart => 1005
    case SnapshotEnd => 1006
    case ComboLegs => 1007
    case PriceIndex => 1008
    case Rfq => 1009
    case InstrumentV2 => 1010
  }

  function TemplateOf(id: uint16): Option<Template> {
    if id == 1000 then Some(Instrument)
    else if id == 1001 then Some(Book)
    else if id == 1002 then Some(Trades)
    else if id == 1003 then Some(Ticker)
    else if id == 1004 then Some(Snapshot)
    else if id == 1005 then Some(SnapshotStart)
    else if id == 1006 then Some(SnapshotEnd)
    else if id == 1007 then Some(ComboLegs)
    else if id == 1008 then Some(PriceIndex)
    else if id == 1009 then Some(Rfq)
    else if id == 1010 then Some(InstrumentV2)
    else None
  }

  predicate HasGroup(t: Template) {
    t.Book? || t.Trades? || t.Snapshot? || t.ComboLegs? || t.InstrumentV2?
  }

  predicate HasName(t: Template) {
    t.Instrument? || t.InstrumentV2?
  }

  /** Block lengths of the generated codecs; those that no sample datagram shows are left open. */
  datatype Schema = Schema(
    snapshotStart: uint16, snapshotEnd: uint16, comboLegs: uint16, comboLeg: uint16, priceIndex: uint16, rfq: uint16)
  {
    function Root(t: Template): uint16 {
      match t
      case Instrument => 140
      case Book => 29
      case Trades => 4
      case Ticker => 133
      case Snapshot => 22
      case SnapshotStart => snapshotStart
      case SnapshotEnd => snapshotEnd
      case ComboLegs => comboLegs
      case PriceIndex => priceIndex
      case Rfq => rfq
      case InstrumentV2 => 139
    }

    /** The block length of one group entry. */
    function Entry(t: Template): uint16 {
      match t
      case Book => 18
      case Trades => 83
      case Snapshot => 17
      case ComboLegs => comboLeg
      case InstrumentV2 => 16
      case _ => 0
    }
  }

  datatype Message = Message(template: Template, root: bytes, entries: seq<bytes>, name: bytes)

  predicate WellFormed(s: Schema, m: Message) {
    && |m.root| == s.Root(m.template)
    && |m.entries| < TWO_TO_THE_16
    && (forall e :: e in m.entries ==> |e| == s.Entry(m.template))
    && (!HasGroup(m.template) ==> m.entries == [])
    && |m.name| < 0x100
    && (!HasName(m.template) ==> m.name == [])
  }

  /** A message as sent; the decoder ignores the version in the header. */
  datatype Item = Item(version: uint16, message: Message)

  // Encoding

  function U16(n: uint16): bytes {
    [n % 0x100, n / 0x100]
  }

  function U32(n: uint32): bytes {
    U16(n % TWO_TO_THE_16) + U16(n / TWO_TO_THE_16)
  }

  function FrameBytes(f: Frame): bytes {
    U16(f.packetLength) + U16(f.channelId) + U32(f.sequenceNumber)
  }

  function HeaderBytes(s: Schema, item: Item): bytes {
    var t := item.message.template;
    U16(s.Root(t)) + U16(TemplateId(t)) + U16(1) + U16(item.version)
    + U16(if HasGroup(t) then 1 else 0) + U16(if HasName(t) then 1 else 0)
  }

  function GroupHeader(blockLength: uint16, count: uint16): bytes {
    U16(blockLength) + U16(count) + U16(0) + U16(0)
  }

  function GroupBytes(s: Schema, m: Message): bytes
    requires WellFormed(s, m)
  {
    if HasGroup(m.template) then GroupHeader(s.Entry(m.template), |m.entries|) + Flatten(m.entries) else []
  }

  function NameBytes(m: Message): bytes
    requires |m.name| < 0x100
  {
    if HasName(m.template) then [|m.name|] + m.name else []
  }

  function BodyBytes(s: Schema, m: Message): bytes
    requires WellFormed(s, m)
  {
    m.root + (GroupBytes(s, m) + NameBytes(m))
  }

  function PacketBytes(s: Schema, items: seq<Item>): bytes
    requires forall i :: i in items ==> WellFormed(s, i.message)
  {
    if items == [] then []
    else (HeaderBytes(s, items[0]) + BodyBytes(s, items[0].message)) + PacketBytes(s, items[1..])
  }

  function Datagram(s: Schema, frame: Frame, items: seq<Item>): bytes
    requires forall i :: i in items ==> WellFormed(s, i.message)
  {
    FrameBytes(frame) + PacketBytes(s, items)
  }

  // Decoding

  function ReadU16(b: bytes, p: nat): uint16
    requires p + 2 <= |b|
  {
    (b[p] as int) + 0x100 * (b[p + 1] as int)
  }

  function ReadU32(b: bytes, p: nat): uint32
    requires p + 4 <= |b|
  {
    (ReadU16(b, p) as int) + TWO_TO_THE_16 * (ReadU16(b, p + 2) as int)
  }

  const FRAME_SIZE := 8
  const HEADER_SIZE := 12
  const GROUP_HEADER_SIZE := 8

  function ReadFrame(b: bytes): Option<Frame> {
    if |b| < FRAME_SIZE then None else Some(Frame(ReadU16(b, 0), ReadU16(b, 2), ReadU32(b, 4)))
  }

  datatype Group = Group(blockLength: uint16, count: uint16)

  function ReadGroup(b: bytes, p: nat): Option<Group> {
    if |b| < p + GROUP_HEADER_SIZE then None else Some(Group(ReadU16(b, p), ReadU16(b, p + 2)))
  }

  /** The next `count` pieces of `blockLength` bytes each. */
  function Pieces(b: bytes, blockLength: nat, count: nat): Option<seq<bytes>>
    decreases count
  {
    if count == 0 then Some([])
    else if |b| < blockLength then None
    else
      var rest := Pieces(b[blockLength..], blockLength, count - 1);
      if rest.None? then None else Some([b[..blockLength]] + rest.value)
  }

  function Product(count: nat, length: nat): nat {
    count * length
  }

  /** Where the name begins: behind the root block, and behind the group as the wire describes it. */
  function NamePosition(s: Schema, t: Template, b: bytes): Option<nat> {
    var root := s.Root(t);
    if !HasGroup(t) then Some(root)
    else
      var g := ReadGroup(b, root);
      if g.None? then None
      else Some(root + GROUP_HEADER_SIZE + Product(g.value.count, g.value.blockLength))
  }

  /**
   The length of a body, which the wire does not carry: recomputed from the group count and
   the name length with the block lengths of the schema. Only templates whose cursor is
   walked over the group are checked to hold all entries.
   */
  function ComputeLength(s: Schema, t: Template, b: bytes): Option<nat> {
    var root := s.Root(t);
    var p := NamePosition(s, t, b);
    if p.None? then None
    else
      var group := if HasGroup(t) then GROUP_HEADER_SIZE + ReadGroup(b, root).value.count * s.Entry(t) else 0;
      if (t.Snapshot? || HasName(t)) && |b| < p.value then None
      else if !HasName(t) then Some(root + group)
      else if |b| <= p.value then None
      else Some(root + group + 1 + b[p.value])
  }

  /** The group entries, if the body holds them all. */
  function EntriesOf(s: Schema, t: Template, b: bytes): Option<seq<bytes>> {
    var root := s.Root(t);
    if !HasGroup(t) then Some([])
    else
      var g := ReadGroup(b, root);
      if g.None? then None else Pieces(b[root + GROUP_HEADER_SIZE..], g.value.blockLength, g.value.count)
  }

  /** What a handler can read from a body. */
  function View(s: Schema, t: Template, b: bytes): Option<Message> {
    var root := s.Root(t);
    var entries := EntriesOf(s, t, b);
    if |b| < root || entries.None? then None
    else if !HasName(t) then Some(Message(t, b[..root], entries.value, []))
    else if NameOf(s, t, b).None? then None
    else Some(Message(t, b[..root], entries.value, NameOf(s, t, b).value))
  }

  function NameOf(s: Schema, t: Template, b: bytes): Option<bytes> {
    var p := NamePosition(s, t, b);
    if p.None? || |b| <= p.value || |b| < p.value + 1 + b[p.value] then None
    else Some(b[p.value + 1..p.value + 1 + b[p.value]])
  }

  datatype Outcome =
    | Done
    | Refused                      // the handler did not accept the frame
    | UnknownTemplate(id: uint16)  // the program terminates
    | Truncated                    // the program terminates, or reads out of bounds

  /** What the handler was called with, `None` for a body that it cannot read to the end, and how it ended. */
  datatype Dispatched = Dispatched(messages: seq<Option<Message>>, outcome: Outcome)

  /** One message at the front of a packet: what the handler sees of it, and how many bytes it should take. */
  datatype Next = Next(message: Option<Message>, bytes: nat)

  function ReadNext(s: Schema, packet: bytes): (r: Option<Next>)
    requires HEADER_SIZE <= |packet|
    ensures r.Some? ==> HEADER_SIZE <= r.value.bytes
  {
    var t := TemplateOf(ReadU16(packet, 2));
    if t.None? then None
    else
      var body := packet[HEADER_SIZE..];
      var length := ComputeLength(s, t.value, body);
      if length.None? then None else Some(Next(View(s, t.value, body), HEADER_SIZE + length.value))
  }

  /** The handler is called before the length is held against the packet. */
  function Dispatch(s: Schema, packet: bytes): Dispatched
    decreases |packet|
  {
    if packet == [] then Dispatched([], Done)
    else if |packet| < HEADER_SIZE then Dispatched([], Truncated)
    else if TemplateOf(ReadU16(packet, 2)).None? then Dispatched([], UnknownTemplate(ReadU16(packet, 2)))
    else
      var next := ReadNext(s, packet);
      if next.None? then Dispatched([], Truncated)
      else if next.value.message.None? || |packet| < next.value.bytes then Dispatched([next.value.message], Truncated)
      else
        var rest := Dispatch(s, packet[next.value.bytes..]);
        Dispatched([next.value.message] + rest.messages, rest.outcome)
  }

  // Round trips

  lemma TemplateBack(t: Template)
    ensures TemplateOf(TemplateId(t)) == Some(t)
  {
  }

  /** Frames decode to what was encoded. */
  lemma {:induction false} FrameRoundTrip(f: Frame, rest: bytes)
    ensures ReadFrame(FrameBytes(f) + rest) == Some(f)
    ensures |FrameBytes(f)| == FRAME_SIZE
  {
    var b := FrameBytes(f) + rest;
    var low, high := f.sequenceNumber % TWO_TO_THE_16, f.sequenceNumber / TWO_TO_THE_16;
    assert b[0] == U16(f.packetLength)[0] && b[1] == U16(f.packetLength)[1];
    assert b[2] == U16(f.channelId)[0] && b[3] == U16(f.channelId)[1];
    assert b[4] == U16(low)[0] && b[5] == U16(low)[1] && b[6] == U16(high)[0] && b[7] == U16(high)[1];
  }

  lemma GroupBack(a: bytes, blockLength: uint16, count: uint16, c: bytes)
    ensures ReadGroup(a + (GroupHeader(blockLength, count) + c), |a|) == Some(Group(blockLength, count))
  {
    var b := a + (GroupHeader(blockLength, count) + c);
    var p := |a|;
    assert b[p] == U16(blockLength)[0] && b[p + 1] == U16(blockLength)[1];
    assert b[p + 2] == U16(count)[0] && b[p + 3] == U16(count)[1];
  }

  lemma {:induction false} FlattenLength(entries: seq<bytes>, n: nat)
    requires forall e :: e in entries ==> |e| == n
    ensures |Flatten(entries)| == |entries| * n
  {
    if entries != [] {
      FlattenLength(entries[1..], n);
      OneMore(|entries| - 1, n);
    }
  }

  lemma OneMore(k: nat, n: nat)
    ensures (k + 1) * n == n + k * n
  {
  }

  lemma {:induction false} PiecesBack(entries: seq<bytes>, n: nat, rest: bytes)
    requires forall e :: e in entries ==> |e| == n
    ensures Pieces(Flatten(entries) + rest, n, |entries|) == Some(entries)
  {
    hide Pieces;
    if entries == [] {
      NoPieces(Flatten(entries) + rest, n);
    } else {
      PiecesBack(entries[1..], n, rest);
      Assoc(entries[0], Flatten(entries[1..]), rest);
      OnePiece(entries[0], Flatten(entries[1..]) + rest, n, entries[1..]);
      assert [entries[0]] + entries[1..] == entries;
    }
  }

  lemma NoPieces(b: bytes, n: nat)
    ensures Pieces(b, n, 0) == Some([])
  {
  }

  lemma OnePiece(piece: bytes, b: bytes, n: nat, more: seq<bytes>)
    requires |piece| == n && Pieces(b, n, |more|) == Some(more)
    ensures Pieces(piece + b, n, |more| + 1) == Some([piece] + more)
  {
    assert (piece + b)[..n] == piece && (piece + b)[n..] == b;
  }

  // One body, followed by anything

  /** What the decoder finds in `body + rest`: the group header right behind the root block, then the entries. */
  lemma GroupFound(s: Schema, m: Message, rest: bytes)
    requires WellFormed(s, m) && HasGroup(m.template)
    ensures var b, root := BodyBytes(s, m) + rest, s.Root(m.template);
            && ReadGroup(b, root) == Some(Group(s.Entry(m.template), |m.entries|))
            && |b| >= root + GROUP_HEADER_SIZE
            && b[root + GROUP_HEADER_SIZE..] == Flatten(m.entries) + (NameBytes(m) + rest)
  {
    var header := GroupHeader(s.Entry(m.template), |m.entries|);
    GroupHeaderLength(s.Entry(m.template), |m.entries|);
    GroupLayout(s, m, rest);
    hide NameBytes, Flatten, GroupHeader, ReadGroup, BodyBytes;
    var b := BodyBytes(s, m) + rest;
    var behind := Flatten(m.entries) + (NameBytes(m) + rest);
    assert b[|m.root + header|..] == behind by {
      assert ((m.root + header) + behind)[|m.root + header|..] == behind;
    }
  }

  lemma NamePositionFound(s: Schema, m: Message, rest: bytes)
    requires WellFormed(s, m) && HasGroup(m.template)
    ensures NamePosition(s, m.template, BodyBytes(s, m) + rest) == Some(|m.root + GroupBytes(s, m)|)
  {
    GroupHeaderLength(s.Entry(m.template), |m.entries|);
    FlattenLength(m.entries, s.Entry(m.template));
    GroupFound(s, m, rest);
    hide NameBytes, Flatten, GroupHeader, ReadGroup, BodyBytes;
  }

  lemma GroupLayout(s: Schema, m: Message, rest: bytes)
    requires WellFormed(s, m) && HasGroup(m.template)
    ensures var b, header := BodyBytes(s, m) + rest, GroupHeader(s.Entry(m.template), |m.entries|);
            && ReadGroup(b, |m.root|) == Some(Group(s.Entry(m.template), |m.entries|))
            && b == (m.root + header) + (Flatten(m.entries) + (NameBytes(m) + rest))
  {
    var header := GroupHeader(s.Entry(m.template), |m.entries|);
    hide NameBytes, Flatten, GroupHeader, ReadGroup;
    Regroup4(m.root, header, Flatten(m.entries), NameBytes(m), rest);
    GroupBack(m.root, s.Entry(m.template), |m.entries|, Flatten(m.entries) + (NameBytes(m) + rest));
    Assoc(m.root, header, Flatten(m.entries) + (NameBytes(m) + rest));
  }

  lemma GroupHeaderLength(blockLength: uint16, count: uint16)
    ensures |GroupHeader(blockLength, count)| == GROUP_HEADER_SIZE
  {
  }

  lemma Regroup4<T>(a: seq<T>, b: seq<T>, c: seq<T>, d: seq<T>, e: seq<T>)
    ensures (a + ((b + c) + d)) + e == a + (b + (c + (d + e)))
  {
    Assoc(a, (b + c) + d, e);
    Assoc(b + c, d, e);
    Assoc(b, c, d + e);
  }

  lemma NameFound(s: Schema, m: Message, rest: bytes)
    requires WellFormed(s, m) && HasName(m.template)
    ensures var b, p := BodyBytes(s, m) + rest, |m.root + GroupBytes(s, m)|;
            && |b| >= p + 1 + |m.name| && b[p] == |m.name| && b[p + 1..p + 1 + |m.name|] == m.name
  {
    hide GroupBytes;
    var front := m.root + GroupBytes(s, m);
    Regroup4(front, [|m.name|], m.name, [], rest);
    Assoc(m.root, GroupBytes(s, m), NameBytes(m));
    assert NameBytes(m) + [] == NameBytes(m);
    assert BodyBytes(s, m) + rest == front + ([|m.name|] + (m.name + rest));
  }

  /** The recomputed length is that of the body. */
  lemma {:induction false} LengthBack(s: Schema, m: Message, rest: bytes)
    requires WellFormed(s, m)
    ensures ComputeLength(s, m.template, BodyBytes(s, m) + rest) == Some(|BodyBytes(s, m)|)
  {
    hide ReadGroup, NamePosition, Flatten;
    var t, b := m.template, BodyBytes(s, m) + rest;
    if HasGroup(t) {
      GroupFound(s, m, rest);
      NamePositionFound(s, m, rest);
      FlattenLength(m.entries, s.Entry(t));
    } else {
      NoGroup(s, t, b);
    }
    if HasName(t) {
      NameFound(s, m, rest);
    }
  }

  lemma NoGroup(s: Schema, t: Template, b: bytes)
    requires !HasGroup(t)
    ensures NamePosition(s, t, b) == Some(s.Root(t))
  {
  }

  /** And the handler reads the content back. */
  lemma EntriesBack(s: Schema, m: Message, rest: bytes)
    requires WellFormed(s, m)
    ensures EntriesOf(s, m.template, BodyBytes(s, m) + rest) == Some(m.entries)
  {
    hide ReadGroup, NamePosition, Flatten, Pieces, BodyBytes;
    if HasGroup(m.template) {
      GroupFound(s, m, rest);
      PiecesBack(m.entries, s.Entry(m.template), NameBytes(m) + rest);
    }
  }

  lemma NameBack(s: Schema, m: Message, rest: bytes)
    requires WellFormed(s, m) && HasName(m.template)
    ensures NameOf(s, m.template, BodyBytes(s, m) + rest) == Some(m.name)
  {
    hide ReadGroup, NamePosition, Flatten, Pieces, BodyBytes;
    var t, b := m.template, BodyBytes(s, m) + rest;
    if HasGroup(t) {
      NamePositionFound(s, m, rest);
    } else {
      NoGroup(s, t, b);
      assert GroupBytes(s, m) == [] && m.root + [] == m.root;
    }
    NameFound(s, m, rest);
  }

  /** A body reads back as the message. */
  lemma {:induction false} ViewBack(s: Schema, m: Message, rest: bytes)
    requires WellFormed(s, m)
    ensures View(s, m.template, BodyBytes(s, m) + rest) == Some(m)
  {
    hide EntriesOf, NameOf, GroupBytes, NameBytes;
    var b := BodyBytes(s, m) + rest;
    assert b[..|m.root|] == m.root;
    EntriesBack(s, m, rest);
    if HasName(m.template) {
      NameBack(s, m, rest);
    }
  }

  lemma HeaderBack(s: Schema, item: Item, rest: bytes)
    ensures |HeaderBytes(s, item)| == HEADER_SIZE
    ensures ReadU16(HeaderBytes(s, item) + rest, 2) == TemplateId(item.message.template)
  {
    var b := HeaderBytes(s, item) + rest;
    var id := U16(TemplateId(item.message.template));
    assert b[2] == id[0] && b[3] == id[1];
  }

  lemma {:induction false} NextBack(s: Schema, item: Item, rest: bytes)
    requires WellFormed(s, item.message)
    ensures var own := HeaderBytes(s, item) + BodyBytes(s, item.message);
            |own + rest| >= HEADER_SIZE && TemplateOf(ReadU16(own + rest, 2)).Some?
            && ReadNext(s, own + rest) == Some(Next(Some(item.message), |own|))
  {
    hide ComputeLength, View, BodyBytes, HeaderBytes;
    var header, body := HeaderBytes(s, item), BodyBytes(s, item.message);
    Assoc(header, body, rest);
    HeaderBack(s, item, body + rest);
    TemplateBack(item.message.template);
    assert (header + (body + rest))[HEADER_SIZE..] == body + rest;
    LengthBack(s, item.message, rest);
    ViewBack(s, item.message, rest);
  }

  function MessagesOf(items: seq<Item>): seq<Option<Message>> {
    seq(|items|, k requires 0 <= k < |items| => Some(items[k].message))
  }

  /** Any list of messages dispatches to the same messages, in order, and consumes every byte. */
  lemma {:induction false} PacketRoundTrip(s: Schema, items: seq<Item>)
    requires forall i :: i in items ==> WellFormed(s, i.message)
    ensures Dispatch(s, PacketBytes(s, items)) == Dispatched(MessagesOf(items), Done)
  {
    hide ReadNext, BodyBytes, HeaderBytes, WellFormed;
    if items != [] {
      var own, rest := HeaderBytes(s, items[0]) + BodyBytes(s, items[0].message), PacketBytes(s, items[1..]);
      PacketRoundTrip(s, items[1..]);
      NextBack(s, items[0], rest);
      assert (own + rest)[|own|..] == rest;
      DispatchOne(s, own + rest, items[0].message, |own|);
      assert MessagesOf(items) == [Some(items[0].message)] + MessagesOf(items[1..]);
    }
  }

  lemma DispatchOne(s: Schema, packet: bytes, m: Message, n: nat)
    requires HEADER_SIZE <= n <= |packet| && TemplateOf(ReadU16(packet, 2)).Some?
    requires ReadNext(s, packet) == Some(Next(Some(m), n))
    ensures Dispatch(s, packet) == Dispatched([Some(m)] + Dispatch(s, packet[n..]).messages, Dispatch(s, packet[n..]).outcome)
  {
  }

  /** Without lengths on the wire, a packet still has only one reading. */
  lemma {:induction false} PacketBytesAreUnambiguous(s: Schema, items: seq<Item>, others: seq<Item>)
    requires forall i :: i in items ==> WellFormed(s, i.message)
    requires forall i :: i in others ==> WellFormed(s, i.message)
    requires PacketBytes(s, items) == PacketBytes(s, others)
    ensures MessagesOf(items) == MessagesOf(others)
  {
    PacketRoundTrip(s, items);
    PacketRoundTrip(s, others);
  }
}
