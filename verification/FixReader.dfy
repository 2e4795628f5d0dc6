/**
 Reading FIX messages from a byte stream
 (src/roq/deribit/gateway/order_entry.cpp:367-404, src/roq/deribit/gateway/market_data.cpp:277-315):
 the loop that takes complete messages off the connection's buffer and drains them.
 */
module FixReader {
  import opened Words

  type Bytes = seq<byte>

  /**
   The message reader: 0, or the length of the first complete message. A complete message is
   recognised by its own bytes, whatever follows.
   */
  ghost predicate IsReader(first: Bytes -> nat) {
    && (forall b: Bytes :: first(b) <= |b|)
    && (forall b: Bytes, more: Bytes :: first(b) > 0 ==> first(b + more) == first(b))
    && (forall b: Bytes :: 0 < first(b) <= |b| ==> first(b[..first(b)]) == first(b))
  }

  /** The messages at the front of a buffer. */
  ghost function Messages(first: Bytes -> nat, b: Bytes): seq<Bytes> {
    var n := first(b);
    if 0 < n <= |b| then [b[..n]] + Messages(first, b[n..]) else []
  }

  /** What is left behind them. */
  ghost function Tail(first: Bytes -> nat, b: Bytes): Bytes {
    var n := first(b);
    if 0 < n <= |b| then Tail(first, b[n..]) else b
  }

  lemma Peel(first: Bytes -> nat, b: Bytes)
    requires IsReader(first)
    ensures var n := first(b);
            && n <= |b|
            && (n == 0 ==> Messages(first, b) == [] && Tail(first, b) == b)
            && (n > 0 ==> Messages(first, b) == [b[..n]] + Messages(first, b[n..]) && Tail(first, b) == Tail(first, b[n..]))
  {
  }

  lemma SameFirst(first: Bytes -> nat, a: Bytes, b: Bytes)
    requires IsReader(first) && first(a) > 0
    ensures var n := first(a);
            && n <= |a| && first(a + b) == n
            && first(a[..n]) == n
            && (a + b)[..n] == a[..n] && (a + b)[n..] == a[n..] + b
  {
  }

  class Connection {
    const first: Bytes -> nat
    var buffer: Bytes
    var parsed: seq<Bytes>

    constructor (first: Bytes -> nat)
      ensures this.first == first && buffer == [] && parsed == []
    {
      this.first := first;
      buffer, parsed := [], [];
    }

    /** The connection manager has bytes; parse and drain all complete messages. */
    method OnRead()
      requires IsReader(first)
      modifies this
      ensures parsed == old(parsed) + Messages(first, old(buffer))
      ensures buffer == Tail(first, old(buffer))
    {
      hide Messages, Tail, IsReader;
      var view := buffer;
      var totalBytes := 0;
      while view != []
        invariant totalBytes <= |buffer| && view == buffer[totalBytes..]
        invariant buffer == old(buffer)
        invariant parsed + Messages(first, view) == old(parsed) + Messages(first, buffer)
        invariant Tail(first, view) == Tail(first, buffer)
        decreases |view|
      {
        Peel(first, view);
        var bytes := first(view);
        if bytes == 0 {
          break;
        }
        Assoc(parsed, [view[..bytes]], Messages(first, view[bytes..]));
        parsed := parsed + [view[..bytes]];
        totalBytes := totalBytes + bytes;
        view := view[bytes..];
      }
      Peel(first, view);
      buffer := buffer[totalBytes..];
    }

    /** More bytes arrive and are read. */
    method Receive(chunk: Bytes)
      requires IsReader(first)
      modifies this
      ensures (parsed, buffer) == Receiving(first, (old(parsed), old(buffer)), chunk)
    {
      buffer := buffer + chunk;
      OnRead();
    }
  }

  /** What one read of `chunk` makes of the messages parsed so far and the bytes left over. */
  ghost function Receiving(first: Bytes -> nat, state: (seq<Bytes>, Bytes), chunk: Bytes): (seq<Bytes>, Bytes) {
    (state.0 + Messages(first, state.1 + chunk), Tail(first, state.1 + chunk))
  }

  ghost function Reads(first: Bytes -> nat, chunks: seq<Bytes>): (seq<Bytes>, Bytes) {
    if chunks == [] then ([], []) else
      var n := |chunks| - 1;
      Receiving(first, Reads(first, chunks[..n]), chunks[n])
  }

  /** Bytes that come later do not change what the earlier ones gave. */
  lemma {:induction false} LaterBytes(first: Bytes -> nat, a: Bytes, b: Bytes)
    requires IsReader(first)
    ensures Messages(first, a + b) == Messages(first, a) + Messages(first, Tail(first, a) + b)
    ensures Tail(first, a + b) == Tail(first, Tail(first, a) + b)
    decreases |a|
  {
    hide Messages, Tail, IsReader;
    var n := first(a);
    Peel(first, a);
    if 0 < n {
      SameFirst(first, a, b);
      Peel(first, a + b);
      LaterBytes(first, a[n..], b);
      Assoc([a[..n]], Messages(first, a[n..]), Messages(first, Tail(first, a[n..]) + b));
    }
  }

  /** However the stream is cut into reads, the messages and the bytes left over are those of a single read. */
  lemma {:induction false} ChunkingDoesNotMatter(first: Bytes -> nat, chunks: seq<Bytes>)
    requires IsReader(first)
    ensures Reads(first, chunks) == (Messages(first, Flatten(chunks)), Tail(first, Flatten(chunks)))
  {
    hide Messages, Tail, IsReader, Flatten, Receiving, Reads;
    if chunks == [] {
      ReadsNone(first);
    } else {
      var n := |chunks| - 1;
      ChunkingDoesNotMatter(first, chunks[..n]);
      ReceivingMore(first, Flatten(chunks[..n]), chunks[n]);
      ReadsMore(first, chunks);
    }
  }

  lemma ReadsNone(first: Bytes -> nat)
    requires IsReader(first)
    ensures Reads(first, []) == (Messages(first, Flatten([])), Tail(first, Flatten([])))
  {
    Peel(first, []);
  }

  lemma ReadsMore(first: Bytes -> nat, chunks: seq<Bytes>)
    requires chunks != []
    ensures var n := |chunks| - 1;
            && Reads(first, chunks) == Receiving(first, Reads(first, chunks[..n]), chunks[n])
            && Flatten(chunks) == Flatten(chunks[..n]) + chunks[n]
  {
    hide Flatten, Receiving;
    var n := |chunks| - 1;
    FlattenSnoc(chunks[..n], chunks[n]);
    assert chunks == chunks[..n] + [chunks[n]];
  }

  lemma ReceivingMore(first: Bytes -> nat, a: Bytes, b: Bytes)
    requires IsReader(first)
    ensures Receiving(first, (Messages(first, a), Tail(first, a)), b) == (Messages(first, a + b), Tail(first, a + b))
  {
    LaterBytes(first, a, b);
  }

  /** Nothing is lost: the messages and the rest are the stream, the rest holds no complete message. */
  lemma {:induction false} NothingIsLost(first: Bytes -> nat, b: Bytes)
    requires IsReader(first)
    ensures Flatten(Messages(first, b)) + Tail(first, b) == b
    ensures first(Tail(first, b)) == 0
    ensures forall m :: m in Messages(first, b) ==> 0 < first(m) == |m|
    decreases |b|
  {
    hide Messages, Tail, IsReader;
    var n := first(b);
    Peel(first, b);
    if 0 < n {
      SameFirst(first, b, []);
      NothingIsLost(first, b[n..]);
      FlattenCons(b[..n], Messages(first, b[n..]));
      assert b == b[..n] + b[n..];
      Assoc(b[..n], Flatten(Messages(first, b[n..])), Tail(first, b));
    }
  }

  lemma FlattenCons(m: Bytes, ms: seq<Bytes>)
    ensures Flatten([m] + ms) == m + Flatten(ms)
  {
    assert ([m] + ms)[1..] == ms;
  }

  /** Complete messages sent back to back, cut in any way, come out as they were sent. */
  lemma {:induction false} SentIsParsed(first: Bytes -> nat, sent: seq<Bytes>, rest: Bytes, chunks: seq<Bytes>)
    requires IsReader(first)
    requires forall m :: m in sent ==> 0 < first(m) == |m|
    requires first(rest) == 0
    requires Flatten(chunks) == Flatten(sent) + rest
    ensures Reads(first, chunks) == (sent, rest)
  {
    ChunkingDoesNotMatter(first, chunks);
    MessagesOfJoined(first, sent, rest);
  }

  lemma {:induction false} MessagesOfJoined(first: Bytes -> nat, sent: seq<Bytes>, rest: Bytes)
    requires IsReader(first)
    requires forall m :: m in sent ==> 0 < first(m) == |m|
    requires first(rest) == 0
    ensures Messages(first, Flatten(sent) + rest) == sent && Tail(first, Flatten(sent) + rest) == rest
  {
    hide Messages, Tail, IsReader;
    if sent == [] {
      Peel(first, rest);
      assert Flatten(sent) + rest == rest;
    } else {
      var m, ms := sent[0], sent[1..];
      assert sent == [m] + ms;
      FlattenCons(m, ms);
      MessagesOfJoined(first, ms, rest);
      var b := Flatten(ms) + rest;
      Assoc(m, Flatten(ms), rest);
      SameFirst(first, m, b);
      Peel(first, m + b);
    }
  }

  // A reader for messages that end with a 1 byte, to show that the contract can be met

  const SOH: byte := 1

  ghost function Line(b: Bytes): nat {
    if b == [] then 0
    else if b[0] == SOH then 1
    else var n := Line(b[1..]); if n == 0 then 0 else n + 1
  }

  lemma {:induction false} LineMeetsTheContract()
    ensures IsReader(Line)
  {
    forall b: Bytes
      ensures Line(b) <= |b| && (0 < Line(b) <= |b| ==> Line(b[..Line(b)]) == Line(b))
    {
      LineOfPrefix(b);
    }
    forall b: Bytes, more: Bytes | Line(b) > 0
      ensures Line(b + more) == Line(b)
    {
      LineOfMore(b, more);
    }
  }

  lemma {:induction false} LineOfPrefix(b: Bytes)
    ensures Line(b) <= |b| && (0 < Line(b) <= |b| ==> Line(b[..Line(b)]) == Line(b))
  {
    if b != [] {
      LineOfPrefix(b[1..]);
      var n := Line(b);
      if 1 < n <= |b| {
        assert b[..n][1..] == b[1..][..n - 1];
      }
    }
  }

  lemma {:induction false} LineOfMore(b: Bytes, more: Bytes)
    requires Line(b) > 0
    ensures Line(b + more) == Line(b)
  {
    if b[0] != SOH {
      assert (b + more)[1..] == b[1..] + more;
      LineOfMore(b[1..], more);
    }
  }
}
