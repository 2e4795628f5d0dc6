/**
 What the exchange publishes on one multicast channel: numbered packets of messages,
 where one book (a snapshot, or the changes of one update) may be cut into fragments
 that span several packets.
 */
module Books {
  import opened Words
  import opened Channels

  /** One Snapshot message, or one Book message (only the latter has a previous change id). */
  datatype Fragment = Fragment(
    instrumentId: uint32,
    prevChangeId: nat,
    changeId: nat,
    isLast: bool,
    levels: seq<Level>)

  /** What an instrument definition fixes for the receiver. */
  datatype Instrument = Instrument(symbol: string, multiplier: real, discard: bool)

  datatype Message =
    | Start                                            // SnapshotStart
    | End                                              // SnapshotEnd
    | Define(instrumentId: uint32, info: Instrument)   // Instrument
    | Levels(fragment: Fragment)                       // Snapshot or Book
    | Ignored                                          // handlers without an effect on books

  type Packet = seq<Message>
  type Book = seq<Fragment>
  type Table = map<uint32, Instrument>

  // The sender's side. A point of the stream lies before message `j` of packet `p`.

  /** The fragments of the unfinished book after `m`, given those before it. */
  function Advance(open: Book, m: Message): Book {
    if m.Levels? then (if m.fragment.isLast then [] else open + [m.fragment]) else open
  }

  function Finished(open: Book, m: Message): seq<Book> {
    if m.Levels? && m.fragment.isLast then [open + [m.fragment]] else []
  }

  /** A book is not interrupted by another book, nor by the start or end of a snapshot cycle. */
  predicate LegalNext(open: Book, m: Message) {
    match m
    case Start => open == []
    case End => open == []
    case Levels(f) => open == [] || open[0].instrumentId == f.instrumentId
    case _ => true
  }

  predicate IsPoint(packets: seq<Packet>, p: nat, j: nat) {
    p < |packets| && j <= |packets[p]|
  }

  /** The unfinished book. */
  function OpenBefore(packets: seq<Packet>, p: nat, j: nat): Book
    requires IsPoint(packets, p, j)
    decreases p, j
  {
    if j > 0 then Advance(OpenBefore(packets, p, j - 1), packets[p][j - 1])
    else if p > 0 then OpenBefore(packets, p - 1, |packets[p - 1]|)
    else []
  }

  /** The books finished so far, in order. */
  function Published(packets: seq<Packet>, p: nat, j: nat): seq<Book>
    requires IsPoint(packets, p, j)
    decreases p, j
  {
    if j > 0 then Published(packets, p, j - 1) + Finished(OpenBefore(packets, p, j - 1), packets[p][j - 1])
    else if p > 0 then Published(packets, p - 1, |packets[p - 1]|)
    else []
  }

  function AllPublished(packets: seq<Packet>): seq<Book> {
    if packets == [] then [] else Published(packets, |packets| - 1, |packets[|packets| - 1]|)
  }

  ghost predicate Legal(packets: seq<Packet>) {
    forall p: nat, j: nat :: p < |packets| && j < |packets[p]| ==> LegalNext(OpenBefore(packets, p, j), packets[p][j])
  }

  /** Message `j` of packet `p` finishes a book. */
  predicate Ends(packets: seq<Packet>, p: nat, j: nat) {
    p < |packets| && j < |packets[p]| && packets[p][j].Levels? && packets[p][j].fragment.isLast
  }

  /** The book it finishes. */
  function BookEndingAt(packets: seq<Packet>, p: nat, j: nat): Book
    requires Ends(packets, p, j)
  {
    OpenBefore(packets, p, j) + [packets[p][j].fragment]
  }

  function LevelsOf(book: Book): seq<Level> {
    if book == [] then [] else LevelsOf(book[..|book| - 1]) + book[|book| - 1].levels
  }

  // Facts about the sender

  function FragmentsBefore(packets: seq<Packet>, p: nat, j: nat): seq<Fragment>
    requires IsPoint(packets, p, j)
    decreases p, j
  {
    if j > 0 then
      FragmentsBefore(packets, p, j - 1) + (if packets[p][j - 1].Levels? then [packets[p][j - 1].fragment] else [])
    else if p > 0 then FragmentsBefore(packets, p - 1, |packets[p - 1]|)
    else []
  }

  /** The published books, followed by the unfinished one, are the fragment stream cut at the last-fragment marks. */
  lemma {:induction false} BooksPartitionTheStream(packets: seq<Packet>, p: nat, j: nat)
    requires IsPoint(packets, p, j)
    ensures Flatten(Published(packets, p, j)) + OpenBefore(packets, p, j) == FragmentsBefore(packets, p, j)
    decreases p, j
  {
    if j > 0 {
      var m, open, books := packets[p][j - 1], OpenBefore(packets, p, j - 1), Published(packets, p, j - 1);
      BooksPartitionTheStream(packets, p, j - 1);
      if m.Levels? {
        Assoc(Flatten(books), open, [m.fragment]);
        if m.fragment.isLast {
          FlattenSnoc(books, open + [m.fragment]);
        }
      }
      assert books + [] == books;
      assert FragmentsBefore(packets, p, j - 1) + [] == FragmentsBefore(packets, p, j - 1);
    } else if p > 0 {
      BooksPartitionTheStream(packets, p - 1, |packets[p - 1]|);
    }
  }

  /** A complete book: one instrument, and the last-fragment mark on its last fragment only. */
  predicate WholeBook(book: Book) {
    && book != []
    && book[|book| - 1].isLast
    && forall k: nat :: k < |book| ==> book[k].instrumentId == book[0].instrumentId && (book[k].isLast ==> k == |book| - 1)
  }

  predicate PartialBook(open: Book) {
    forall k: nat :: k < |open| ==> open[k].instrumentId == open[0].instrumentId && !open[k].isLast
  }

  /** Something of the instrument, and of no other, is unfinished. */
  predicate IsAbout(open: Book, instrumentId: uint32) {
    open != [] && forall f :: f in open ==> f.instrumentId == instrumentId
  }

  lemma {:induction false} OpenIsPartial(packets: seq<Packet>, p: nat, j: nat)
    requires Legal(packets) && IsPoint(packets, p, j)
    ensures PartialBook(OpenBefore(packets, p, j))
    decreases p, j
  {
    if j > 0 {
      OpenIsPartial(packets, p, j - 1);
      assert LegalNext(OpenBefore(packets, p, j - 1), packets[p][j - 1]);
    } else if p > 0 {
      OpenIsPartial(packets, p - 1, |packets[p - 1]|);
    }
  }

  /** On a legal stream every published book is complete and about one instrument. */
  lemma {:induction false} PublishedAreWhole(packets: seq<Packet>, p: nat, j: nat)
    requires Legal(packets) && IsPoint(packets, p, j)
    ensures forall b :: b in Published(packets, p, j) ==> WholeBook(b)
    decreases p, j
  {
    if j > 0 {
      PublishedAreWhole(packets, p, j - 1);
      OpenIsPartial(packets, p, j - 1);
      assert LegalNext(OpenBefore(packets, p, j - 1), packets[p][j - 1]);
    } else if p > 0 {
      PublishedAreWhole(packets, p - 1, |packets[p - 1]|);
    }
  }

  lemma BookEndingAtIsWhole(packets: seq<Packet>, p: nat, j: nat)
    requires Legal(packets) && Ends(packets, p, j)
    ensures WholeBook(BookEndingAt(packets, p, j))
    ensures BookEndingAt(packets, p, j)[0].instrumentId == packets[p][j].fragment.instrumentId
  {
    OpenIsPartial(packets, p, j);
    assert LegalNext(OpenBefore(packets, p, j), packets[p][j]);
  }

  /** One point of the stream lies before another. */
  predicate NotAfter(p: nat, j: nat, q: nat, l: nat) {
    p < q || (p == q && j <= l)
  }

  /** What is published stays published, at its place. */
  lemma {:induction false} PublishedGrows(packets: seq<Packet>, p: nat, j: nat, q: nat, l: nat)
    requires IsPoint(packets, p, j) && IsPoint(packets, q, l) && NotAfter(p, j, q, l)
    ensures Published(packets, p, j) <= Published(packets, q, l)
    decreases q, l
  {
    if p == q && j == l {
    } else if l > 0 {
      PublishedGrows(packets, p, j, q, l - 1);
    } else {
      PublishedGrows(packets, p, j, q - 1, |packets[q - 1]|);
    }
  }

  /** The book that a message finishes comes next among the published ones. */
  lemma BookIsPublished(packets: seq<Packet>, p: nat, j: nat)
    requires Ends(packets, p, j)
    ensures |Published(packets, p, j)| < |AllPublished(packets)|
    ensures AllPublished(packets)[|Published(packets, p, j)|] == BookEndingAt(packets, p, j)
  {
    var q := |packets| - 1;
    PublishedGrows(packets, p, j + 1, q, |packets[q]|);
    assert Published(packets, p, j + 1)[|Published(packets, p, j)|] == BookEndingAt(packets, p, j);
  }

  // Where the fragments of the unfinished book are

  /** Message `message` of packet `packet`. */
  datatype Place = Place(packet: nat, message: nat)

  function PlacesBefore(packets: seq<Packet>, p: nat, j: nat): seq<Place>
    requires IsPoint(packets, p, j)
    decreases p, j
  {
    if j > 0 then
      var m := packets[p][j - 1];
      if !m.Levels? then PlacesBefore(packets, p, j - 1)
      else if m.fragment.isLast then []
      else PlacesBefore(packets, p, j - 1) + [Place(p, j - 1)]
    else if p > 0 then PlacesBefore(packets, p - 1, |packets[p - 1]|)
    else []
  }

  /** The places of all fragments of the book that message `j` of packet `p` finishes. */
  function PlacesOf(packets: seq<Packet>, p: nat, j: nat): seq<Place>
    requires Ends(packets, p, j)
  {
    PlacesBefore(packets, p, j) + [Place(p, j)]
  }

  predicate IsPlaceOf(packets: seq<Packet>, place: Place, f: Fragment) {
    place.packet < |packets| && place.message < |packets[place.packet]| && packets[place.packet][place.message] == Levels(f)
  }

  lemma {:induction false} PlacesArePlaces(packets: seq<Packet>, p: nat, j: nat)
    requires IsPoint(packets, p, j)
    ensures var open, places := OpenBefore(packets, p, j), PlacesBefore(packets, p, j);
            && |places| == |open|
            && forall x: nat :: x < |places| ==>
                 && IsPlaceOf(packets, places[x], open[x])
                 && places[x].packet <= p && (places[x].packet == p ==> places[x].message < j)
    decreases p, j
  {
    if j > 0 {
      PlacesArePlaces(packets, p, j - 1);
    } else if p > 0 {
      PlacesArePlaces(packets, p - 1, |packets[p - 1]|);
    }
  }

  /** They come in the order of the stream. */
  lemma {:induction false} PlacesAscend(packets: seq<Packet>, p: nat, j: nat, x: nat, y: nat)
    requires IsPoint(packets, p, j) && x <= y < |PlacesBefore(packets, p, j)|
    ensures var places := PlacesBefore(packets, p, j);
            NotAfter(places[x].packet, places[x].message, places[y].packet, places[y].message)
    decreases p, j
  {
    if j > 0 {
      PlacesArePlaces(packets, p, j - 1);
      if y < |PlacesBefore(packets, p, j - 1)| {
        PlacesAscend(packets, p, j - 1, x, y);
      }
    } else if p > 0 {
      PlacesAscend(packets, p - 1, |packets[p - 1]|, x, y);
    }
  }

  // The receiver's table

  /** `later` has every entry of `table`, unchanged. */
  predicate Extends(table: Table, later: Table) {
    forall id :: id in table ==> id in later && later[id] == table[id]
  }

  /** Known and not discarded. */
  predicate Served(table: Table, instrumentId: uint32) {
    instrumentId in table && !table[instrumentId].discard
  }

  function MultiplierOf(table: Table, book: Book): real {
    if book != [] && Served(table, book[0].instrumentId) then table[book[0].instrumentId].multiplier else 0.0
  }
}
