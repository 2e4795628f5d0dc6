# Deribit gateway: a verified model

The program connects a trading system to the Deribit exchange. This project models the parts of
it whose behaviour depends on what came before, and proves what they do over every run.

* **Multicast market data.** Numbered datagrams arrive with loss, repetition and reordering. A
  channel (`Channels`) accepts consecutive frames and one first jump. The snapshot receiver
  (`UdpSnapshot`) and the events receiver (`UdpEvents`) collect a book, or the changes of one
  update, over several datagrams and hand it to the sequencer of the instrument. `SharedState` is
  the table of instruments and the log of sequencer calls. `Books` is the sender: fragments cut
  into packets, and the books they make up. `Network` is the way in between, and says which frames
  are accepted and which instruments are known in terms of stream and arrivals alone. `Receivers`
  runs either receiver over it and proves exactly which calls it makes; `Handovers`,
  `SnapshotRuns` and `EventsRuns` say what that means. `SequenceFilter` is the filter in front of
  trades and tickers. `SbeFormat` and `SbeParser` are the encoding (FIX Simple Binary Encoding
  1.0, section 3 "Message Structure") and the datagram loop; `SbeLayout` says the same byte by byte.
* **The FIX order session.** `OrderSession` has the message numbers, the login and download, and
  the attribution of rejects; `OrderActions` says when an order action is sent; `Watchdog` has the
  timing over whole runs; `Fills` the aggregation of fills; `FixReader` the loop that cuts the byte
  stream into messages.
* **FIX market data.** `MarketData` and `LatchRuns` have the latch that holds back incrementals
  after a bad book, `BookContents` says what the published updates hold, `Batching` is the split of a
  subscription into requests.
* **The account download.** `DropCopy`.
* **Login signatures.** `SignatureClock`.
* **Channel names.** `ChannelNames`.

State the program changes in place is a class whose methods equate the new state with a function
of the old one. Runs are sequences of events over those functions, and the theorems are about all
runs.

How libraries that are not part of this model appear: a sequencer is a ready flag and a log of
calls; the download library visits states in order and goes on at once when a state does not wait;
the FIX message reader returns 0 or the length of the first complete message, which that message's
own bytes determine; the dispatcher of market data takes a book or signals BadState; the JSON
library's join puts a separator between names. Time is an argument. Prices and quantities are
reals, the tests for zero exact. Numbers on the wire are 32 bits wide and wrap.

## What the proofs found

* A channel whose first non-zero number is 1 never counts as initialized, so its next gap goes
  unnoticed (`Channels.GapsUnnoticedIff` says exactly when), and a patchwork of two datagrams can
  be handed over as a book (`SnapshotRuns.StartAtOneHandsOverAPatchwork`); what such a gap carries
  over is said by `Handovers.UnnoticedGapCarries`. The assertion at
  `src/roq/deribit/gateway/channel.cpp:33` would catch it in a debug build. A first number 0 is
  taken for a repeat.
* The race noted at `src/roq/deribit/gateway/udp_snapshot.cpp:224` hands over part of a book
  (`SnapshotRuns.ResetInTheMiddleHandsOverTheRest`); when a call is the whole book is stated
  exactly (`SnapshotRuns.SnapshotSoundness`).
* On the events channel a repeated or lost datagram in the middle of a group still lets the rest
  of the group through (`EventsRuns.RepeatLetsTheTailThrough`; when an update is the whole group:
  `EventsRuns.WholeGroupIff`).
* A datagram that comes again directly behind its predecessor is accepted again, so replaying two
  neighbours hands over an old book a second time (`SnapshotRuns.ReplayHandsOverTwice`,
  `EventsRuns.ReplayHandsOverTwice`). Exactly when a book is handed over twice is said by
  `SnapshotRuns.SnapshotsNameTwiceIff` and `EventsRuns.EventsNameTwiceIff`.
* The sequence filter takes a stale number for a wrap-around if the two straddle 2^31
  (`SequenceFilter.StalePassesIff`).
* The table of requests outlives the connection and numbers start over, so after a reconnect a
  reject can be attributed to a request of an earlier connection
  (`OrderSession.ReconnectMisattributes`; exactly when: `OrderSession.RejectAttributedIff`).
  `src/roq/deribit/gateway/order_entry.cpp:229` calls the table a leak; it is more than that.
* A session that is opened before any currency is known subscribes to the portfolio of an empty
  currency (`DropCopy.EmptyJoinNamesNothing`; exactly when: `DropCopy.EmptyPortfolioIff`).
* The chart interval is never read from a channel name, the handler is always given 0
  (`ChannelNames.ParseChannel`), and a symbol with a dot is cut short
  (`ChannelNames.SymbolRecoveredIff`).
* Order actions are gated on the connection status, not on `ready_`, and a logout leaves the status
  READY, so they are still sent on the closing connection (`OrderActions.OrderAfterLogout`; exactly
  when an action is sent: `OrderActions.ActionSentIff`).

## Model

| member | source | states |
|---|---|---|
| Channels.Channel.Receive | src/roq/deribit/gateway/channel.cpp:15-40 | the verdict on a frame and the new channel state, for every old state and number, in 32-bit arithmetic |
| Channels.Channel.Reset | src/roq/deribit/gateway/channel.cpp:42-47 | empties the buffers and leaves the cycle, touching neither number nor the spent jump |
| Channels.HeardIsLastNumber | src/roq/deribit/gateway/channel.cpp:15-40 | over every run of numbers the remembered number is the last one received, accepted or not, and the jump is spent iff some number neither repeated nor continued its predecessor |
| Channels.AcceptanceRule | src/roq/deribit/gateway/channel.cpp:15-40 | over every run a frame is accepted iff it is its predecessor plus 1 mod 2^32, or the one first jump |
| Channels.GapsUnnoticedIff | src/roq/deribit/gateway/channel.cpp:15-40 | a jump is accepted after other frames were accepted iff the first non-zero number of the run is 1 and some later number jumps; line 33 asserts that this never happens |
| Channels.GoodStartInitializes | src/roq/deribit/gateway/channel.cpp:24-35 | if the first non-zero number is not 1, any non-zero number has spent the jump |
| Channels.Channel.Append | src/roq/deribit/gateway/udp_snapshot.cpp:225-252 | the loop over levels appends to each side exactly the levels of that side, in order, each with its price and its amount times the multiplier |
| Channels.ScaledIsSide | src/roq/deribit/gateway/udp_snapshot.cpp:226-251 | the k-th update of a side has the price of the k-th level of that side and its amount times the multiplier, and no level of the side is missing |
| Channels.ScaledCount | src/roq/deribit/gateway/udp_snapshot.cpp:225-252 | every level goes to exactly one side |
| SharedState.Shared.FindInstrument | src/roq/deribit/gateway/shared.hpp:41-51 | an instrument is passed on iff it is known and not discarded; the result says only that it is known |
| SharedState.Shared.MaybeCreateInstrument | src/roq/deribit/gateway/shared.hpp:54-62 | the first definition of an instrument stays; no other entry changes |
| Channels.GoodStartIsEnough | src/roq/deribit/gateway/channel.cpp:15-40 | a run whose first non-zero number is not 1 has no unnoticed gap |
| Channels.AcceptedContinues | src/roq/deribit/gateway/channel.cpp:15-40 | in a run without an unnoticed gap only the successor of the number before is accepted once a frame has been |
| SharedState.ChannelMap.Get | src/roq/deribit/gateway/udp_snapshot.cpp:347-353 | a channel not seen before starts fresh; no channel changes by being looked up |
| Books.BooksPartitionTheStream | src/roq/deribit/gateway/udp_snapshot.cpp:211-316 | the sender: published books and the unfinished one are the fragment stream cut at the last-fragment marks |
| Books.PublishedAreWhole | src/roq/deribit/gateway/udp_snapshot.cpp:253-260 | the sender: on a legal stream each published book is about one instrument and marked last on its last fragment only |
| Network.NumbersIdentifyPackets | src/roq/deribit/gateway/channel.cpp:17-20 | fewer than 2^32 packets have different numbers, and only neighbours have consecutive ones |
| Network.AcceptedIsNext | src/roq/deribit/gateway/channel.cpp:15-40 | in a run without an unnoticed gap, once a frame has been accepted every accepted frame brings the next packet |
| Network.AcceptedIffNext | src/roq/deribit/gateway/channel.cpp:15-40 | once a frame has been accepted, an arrival is accepted iff it brings the packet behind that of the arrival before |
| Network.BackToBackIsFollowed | src/roq/deribit/gateway/channel.cpp:15-40 | arrivals that bring neighbouring packets are all accepted if the first one is |
| Network.FollowingIff | src/roq/deribit/gateway/udp_snapshot.cpp:318-326 | a cycle is followed iff some SnapshotStart opened it, every frame since was accepted, and no SnapshotEnd came |
| Receivers.AcceptsIff | src/roq/deribit/gateway/udp_snapshot.cpp:162-172 | both receivers accept exactly the frames that the acceptance rule over the run allows, whatever the messages do |
| Receivers.TakeHolds | src/roq/deribit/gateway/udp_snapshot.cpp:222-308 | one fragment keeps the buffers equal to the levels in hand, fails no assertion, and makes the call it should |
| Receivers.FragmentNamesInstrument | src/roq/deribit/gateway/udp_snapshot.cpp:253-260 | a fragment that is not the last names its instrument on a channel that has none, and no other |
| Receivers.RunKeepsInvariant | src/roq/deribit/gateway/udp_snapshot.cpp:162-172 | the invariant of every reachable state of both receivers: after an accepted frame the buffers are what is in hand of the sender's unfinished book, after a refused one they are empty |
| Receivers.CallsAreExactlyThese | src/roq/deribit/gateway/udp_events.cpp:207-217 | end to end, for both receivers and under any loss, repetition and reordering: the sequencer calls of a run are exactly those said of each message in terms of stream and arrivals alone, in order |
| Receivers.LogIsExact | src/roq/deribit/gateway/udp_events.cpp:207-217 | the same at every message of every accepted arrival, not only at the end of the run |
| Handovers.CallsComeFromBooks | src/roq/deribit/gateway/udp_snapshot.cpp:211-316 | every call of a run was made by an accepted message that finished a book, each by its own, in order |
| Handovers.CallHoldsLevels | src/roq/deribit/gateway/udp_events.cpp:256-357 | every call of either receiver names the instrument and change ids of the book it ends and holds, side by side and in order, the levels in hand with their amounts times the multiplier of the instrument |
| Handovers.NoCallsForDiscarded | src/roq/deribit/gateway/shared.hpp:41-51 | no run calls a sequencer for an instrument that is unknown or to be discarded |
| Handovers.WholeIffAllInHand | src/roq/deribit/gateway/udp_snapshot.cpp:211-316 | for both receivers, what finishing a book hands over is the whole of it iff every fragment with levels is in hand |
| Handovers.BooksComeInOrder | src/roq/deribit/gateway/channel.cpp:15-40 | if arrivals never go back in the stream, later calls name later published books: none twice |
| Handovers.NamesTwiceIff | src/roq/deribit/gateway/channel.cpp:15-40 | over every run of either receiver two calls name the same book iff the packet of an accepted arrival comes again directly behind its predecessor and a message of it makes a call both times |
| Handovers.UnnoticedGapCarries | src/roq/deribit/gateway/channel.cpp:32-36 | exactly what an unnoticed gap carries into the packet behind it: the levels in hand of the unfinished book, none iff none are in hand, and the followed cycle |
| Handovers.StretchHandsOver | src/roq/deribit/gateway/udp_events.cpp:243-365 | for both receivers, over frames accepted without interruption the calls about an instrument grow by exactly one whole call for each book of it finished meanwhile, in order |
| Handovers.InstrumentsNeverMix | src/roq/deribit/gateway/udp_snapshot.cpp:253-260 | over every run of either receiver the instrument assertion never fails, and the buffered instrument is that of the unfinished book at the packet heard last |
| SnapshotRuns.SnapshotSoundness | src/roq/deribit/gateway/udp_snapshot.cpp:211-316 | under any loss, repetition and reordering each call names one published book of a served instrument, finished while a cycle was followed, and is that whole book iff at each arrival that carried a fragment of it with levels the instrument was served and its sequencer not ready |
| SnapshotRuns.SnapshotsAreWhole | src/roq/deribit/gateway/udp_snapshot.cpp:211-316 | if around every message the instrument is defined, not discarded and its sequencer not ready, every call about it is exactly one whole published book: the ids of the book, and per side the price of each level in order with its amount times the multiplier |
| SnapshotRuns.ReadyIffFollowing | src/roq/deribit/gateway/udp_snapshot.cpp:162-172 | over every run the channel is ready iff a SnapshotStart was accepted, all frames since were accepted and consecutive, and no SnapshotEnd came |
| SnapshotRuns.SnapshotCompleteness | src/roq/deribit/gateway/udp_snapshot.cpp:211-326 | from any message of an accepted arrival on at which a cycle starts or is followed, the packets coming back to back with no SnapshotEnd, for an instrument served there with no book unfinished and a sequencer that stays not ready: the log grows by exactly one whole call for each non-empty book of it finished meanwhile, in order, and by nothing else about it, whatever happened on the channel before |
| SnapshotRuns.NothingOpenAtStart | src/roq/deribit/gateway/udp_snapshot.cpp:318-321 | at a SnapshotStart, and right behind it, no book of any instrument is unfinished, so completeness may count from there |
| SnapshotRuns.BookIsHandedOver | src/roq/deribit/gateway/udp_snapshot.cpp:211-326 | a book whose instrument is served when its first fragment comes, be it defined right in front of it inside the cycle, and whose sequencer is not ready at each fragment: with the SnapshotStart accepted and the packets back to back its last message adds exactly the whole book to the log |
| SnapshotRuns.WholeBookIff | src/roq/deribit/gateway/udp_snapshot.cpp:211-316 | while a cycle is followed, finishing a book of a served instrument hands over the whole of it iff every fragment with levels came while its instrument was served and its sequencer not ready |
| SnapshotRuns.SnapshotCallIff | src/roq/deribit/gateway/udp_snapshot.cpp:261-304 | an accepted message makes a call iff it ends a book of a served instrument in a followed cycle and some fragment with levels came while its sequencer was not ready |
| SnapshotRuns.SnapshotsNameTwiceIff | src/roq/deribit/gateway/channel.cpp:15-40 | over every run two calls name the same book iff the packet of an accepted arrival comes again directly behind its predecessor in the stream and both times made a call in that sense |
| SnapshotRuns.StartAtOneHandsOverAPatchwork | src/roq/deribit/gateway/channel.cpp:15-40 | a run whose first number is 1 and that loses one packet of three: the other two fragments are handed over as a book nobody published |
| SnapshotRuns.ResetInTheMiddleHandsOverTheRest | src/roq/deribit/gateway/udp_snapshot.cpp:224-225 | a run in which the sequencer is reset in the middle of a book: it is given only the rest |
| SnapshotRuns.ReplayHandsOverTwice | src/roq/deribit/gateway/channel.cpp:15-40 | a run that replays two neighbouring packets: an old book is handed over twice |
| UdpSnapshot.UDPSnapshot.OnFrame | src/roq/deribit/gateway/udp_snapshot.cpp:162-172 | a frame changes its own channel only, and a refused one resets it |
| UdpSnapshot.UDPSnapshot.OnSnapshot | src/roq/deribit/gateway/udp_snapshot.cpp:211-316 | one Snapshot message changes channel and sequencer log as the step of the theorems does, and no other channel or sequencer |
| UdpSnapshot.UDPSnapshot.OnServedSnapshot | src/roq/deribit/gateway/udp_snapshot.cpp:222-308 | the branch for a served instrument, by the state of channel and sequencer |
| UdpSnapshot.UDPSnapshot.OnSnapshotStart | src/roq/deribit/gateway/udp_snapshot.cpp:318-321 | the channel follows a cycle; no other channel changes |
| UdpSnapshot.UDPSnapshot.OnSnapshotEnd | src/roq/deribit/gateway/udp_snapshot.cpp:323-326 | the channel leaves the cycle; no other channel changes |
| EventsRuns.EventsHandOverTails | src/roq/deribit/gateway/udp_events.cpp:207-217 | under any loss, repetition and reordering each update is a contiguous, non-empty tail of one published group of changes ending with its last fragment, scaled and in order per side: the fragments since whose frame every frame was accepted, with the instrument served |
| EventsRuns.WholeGroupIff | src/roq/deribit/gateway/udp_events.cpp:243-365 | over every run an update hands over all fragments of its group iff every frame from its first to its last fragment was accepted and the instrument was served when the first came |
| EventsRuns.WholeUpdateIff | src/roq/deribit/gateway/udp_events.cpp:243-365 | an update has the levels of the whole group iff the same holds from the first fragment with levels on |
| EventsRuns.GroupIsHandedOver | src/roq/deribit/gateway/udp_events.cpp:243-365 | a group whose packets, the first one accepted, come back to back, with the instrument served when its first fragment comes: its last message adds exactly the whole group to the log, whatever came before in its first packet |
| EventsRuns.EventsCompleteness | src/roq/deribit/gateway/udp_events.cpp:243-365 | while packets arrive back to back from any message of an accepted one on at which the instrument is served and no group of it unfinished, the log grows by exactly one whole call for every group about it, in order, and by nothing else about it |
| EventsRuns.EventsNameTwiceIff | src/roq/deribit/gateway/channel.cpp:15-40 | over every run two updates name the same group iff the packet of an accepted arrival comes again directly behind its predecessor in the stream and ended a group of a served instrument |
| EventsRuns.RepeatLetsTheTailThrough | src/roq/deribit/gateway/udp_events.cpp:207-217 | a run that loses nothing and repeats one packet: only the last fragment of the group is handed over |
| EventsRuns.ReplayHandsOverTwice | src/roq/deribit/gateway/channel.cpp:15-40 | a run that replays two neighbouring packets: an old group is handed over twice |
| UdpEvents.UDPEvents.OnFrame | src/roq/deribit/gateway/udp_events.cpp:207-217 | a frame changes its own channel only, and a refused one resets it |
| UdpEvents.UDPEvents.OnBook | src/roq/deribit/gateway/udp_events.cpp:243-365 | one Book message changes channel and sequencer log as the step of the theorems does, and no other channel or sequencer |
| UdpEvents.UDPEvents.OnServedBook | src/roq/deribit/gateway/udp_events.cpp:256-357 | the branch for a served instrument; the sequencer is called on the last fragment even with empty buffers |
| UdpEvents.UDPEvents.OnTrades | src/roq/deribit/gateway/udp_events.cpp:367-418 | a summary is published iff the frame number passes the filter and the instrument is served, with all trades in order, scaled, at the latest of their times; the filter moves on even for an unknown instrument |
| UdpEvents.UDPEvents.OnTicker | src/roq/deribit/gateway/udp_events.cpp:420-460 | likewise a top of book, with both quantities scaled |
| UdpEvents.TopFields | src/roq/deribit/gateway/udp_events.cpp:430-447 | each amount is scaled and stays with its price and side |
| UdpEvents.TradeFields | src/roq/deribit/gateway/udp_events.cpp:380-399 | each trade keeps its side, price and id, with its amount times the multiplier |
| SequenceFilter.Filter.TestSequence | src/roq/deribit/gateway/udp_events.cpp:90-111 | verdict and new cache for every cache, instrument and number |
| SequenceFilter.PassedIsChained | src/roq/deribit/gateway/udp_events.cpp:90-111 | over every run of all instruments the cache holds the last number passed, and each passed number follows the one passed before |
| SequenceFilter.PassedUnfoldsIncreasing | src/roq/deribit/gateway/udp_events.cpp:90-111 | with one epoch more at each wrap, the numbers passed for an instrument unfold to a strictly increasing sequence |
| SequenceFilter.SteadyAllPass | src/roq/deribit/gateway/udp_events.cpp:90-111 | if the true counters rise by 1 to 2^31-1 a message, every message of the instrument passes, whatever other instruments do |
| SequenceFilter.SteadyUnfoldsToCounters | src/roq/deribit/gateway/udp_events.cpp:90-111 | and the unfolding is the true counter, up to the epoch of the first one |
| SequenceFilter.LargestSteadyRise | src/roq/deribit/gateway/udp_events.cpp:90-111 | a rise is accepted at every counter iff it is below 2^31 |
| SequenceFilter.RepeatIsRefused | src/roq/deribit/gateway/udp_events.cpp:412-417 | a second message with the same number does not pass |
| SequenceFilter.StalePassesIff | src/roq/deribit/gateway/udp_events.cpp:98-102 | an older number passes iff the two lie in different epochs or straddle the midpoint 2^31 |
| SbeFormat.FrameRoundTrip | src/roq/deribit/protocol/sbe/frame.cpp:26-44 | a frame decodes to what was encoded, little-endian, in 8 bytes |
| SbeLayout.FrameFields | src/roq/deribit/protocol/sbe/frame.cpp:26-44 | the three fields of a frame as sums of its bytes times powers of 256, little-endian, and no frame in fewer than 8 bytes |
| SbeLayout.GroupFields | src/roq/deribit/protocol/sbe/utils.hpp:44-56 | block length and count of a group header as sums of its first four bytes |
| SbeLayout.TemplateField | src/roq/deribit/protocol/sbe/parser.cpp:50-103 | the template id is bytes 2 and 3 of a message header, and any id outside 1000 to 1010 ends the dispatch there |
| SbeLayout.TemplatesById | src/roq/deribit/protocol/sbe/parser.cpp:56-100 | which template each of the eleven ids is |
| SbeLayout.FixedLength | src/roq/deribit/protocol/sbe/utils.hpp:74-111 | a template without group and name has the length of its root block |
| SbeLayout.CountedLength | src/roq/deribit/protocol/sbe/utils.hpp:44-56 | Book, ComboLegs and Trades: the length from two bytes of the group header |
| SbeLayout.NamedLength | src/roq/deribit/protocol/sbe/utils.hpp:57-62 | Instrument: the length from byte 140 |
| SbeLayout.SnapshotLength | src/roq/deribit/protocol/sbe/utils.hpp:86-93 | Snapshot: the length from the group header, if all entries are there |
| SbeLayout.InstrumentV2Length | src/roq/deribit/protocol/sbe/utils.hpp:64-72 | InstrumentV2: the length from the group header and the byte behind the entries, if they are there |
| SbeLayout.SentIsDispatched | test/sbe_parser.cpp:19-99 | any datagram of the six kinds of messages that the samples show, header bytes written out, with any root blocks, entries and names, reads as those messages in order to the last byte |
| SbeLayout.FramesAsSent | test/sbe_parser.cpp:221-226 | the frames of the two sample datagrams |
| SbeFormat.LengthBack | src/roq/deribit/protocol/sbe/utils.hpp:40-119 | for all eleven templates the length recomputed from an encoded body, whatever follows it, is the number of bytes it takes |
| SbeFormat.ViewBack | src/roq/deribit/protocol/sbe/utils.hpp:123-138 | an encoded body reads back as the same root block, group entries and name |
| SbeFormat.NextBack | src/roq/deribit/protocol/sbe/parser.cpp:26-37 | header and body of one encoded message are read back and exactly its bytes are taken |
| SbeFormat.PacketRoundTrip | src/roq/deribit/protocol/sbe/parser.cpp:44-113 | any list of messages, any group counts and name lengths, reads back in order with no byte left |
| SbeFormat.PacketBytesAreUnambiguous | src/roq/deribit/protocol/sbe/parser.cpp:44-113 | although no length travels, equal packets encode equal messages |
| SbeParser.Flyweight.ForEach | src/roq/deribit/protocol/sbe/utils.hpp:65-73 | walks the cursor over all entries and counts them; fails iff one is cut off |
| SbeParser.Flyweight.ComputeLengthCounted | src/roq/deribit/protocol/sbe/utils.hpp:44-56 | Book, ComboLegs and Trades: the length from the group count alone |
| SbeParser.Flyweight.ComputeLengthSnapshot | src/roq/deribit/protocol/sbe/utils.hpp:87-94 | Snapshot: rewinds and walks the group, and the length is the same as from the count |
| SbeParser.Flyweight.ComputeLengthInstrument | src/roq/deribit/protocol/sbe/utils.hpp:58-63 | Instrument: the length from the name |
| SbeParser.Flyweight.ComputeLengthInstrumentV2 | src/roq/deribit/protocol/sbe/utils.hpp:65-73 | InstrumentV2: the length from counted entries and the name behind them, wherever the cursor stood |
| SbeParser.Flyweight.GetInstrumentName | src/roq/deribit/protocol/sbe/utils.hpp:122-138 | the name behind root and group, wherever the cursor stood |
| SbeParser.DispatchHelper | src/roq/deribit/protocol/sbe/parser.cpp:26-37 | the handler is called iff the length can be computed, before it is held against the packet, with what the body holds |
| SbeParser.DispatchDatagram | src/roq/deribit/protocol/sbe/parser.cpp:39-117 | the loop calls the frame handler once, and if the frame is accepted the message handler once a message, up to and including one that is cut short, and says how it ended |
| SbeParser.DispatchEncoded | src/roq/deribit/protocol/sbe/parser.cpp:39-117 | an encoded datagram reaches the handler as its frame and, if accepted, exactly its messages, in order |
| SbeParser.DatagramRoundTrip | src/roq/deribit/protocol/sbe/parser.cpp:39-117 | reading an encoded datagram gives its frame and messages and uses every byte |
| OrderSession.NumberingRestartsWithEachConnection | src/roq/deribit/gateway/order_entry.cpp:1083-1105 | over every run the k-th send attempt since the connection was lost carries number k |
| OrderSession.TableHoldsFirstActions | src/roq/deribit/gateway/order_entry.cpp:228-230 | over every run and all connections the table maps n to the request of the first order action ever numbered n, and has no other entries |
| OrderSession.FirstConnectionNumbersAreFresh | src/roq/deribit/gateway/order_entry.cpp:352-365 | until a disconnect the numbers of order actions strictly rise and none exceeds the counter |
| OrderSession.FirstConnectionRejectsAreAttributed | src/roq/deribit/gateway/order_entry.cpp:846-870 | until a disconnect a reject of a new, replaced or cancelled order is attributed to the request that sent it |
| OrderSession.RejectAttributedIff | src/roq/deribit/gateway/order_entry.cpp:846-870 | with distinct request ids, over any connections, for a new, replaced or cancelled order: attributed to the right request iff no earlier action had the number |
| OrderSession.WhatARejectDoes | src/roq/deribit/gateway/order_entry.cpp:830-884 | in terms of the reject alone: an order message is attributed or noted; a slow connection, or the rate limit on a mass cancel, closes; anything else ends the process; nothing but the link changes |
| OrderSession.WhatIsSent | src/roq/deribit/gateway/order_entry.cpp:411-482 | each kind of message is sent exactly at its one event |
| OrderSession.WhatTheStatusIs | src/roq/deribit/gateway/order_entry.cpp:411-435 | status, download state and readiness after each event |
| OrderSession.WhenTheLinkCloses | src/roq/deribit/gateway/order_entry.cpp:461-476 | the link is given up exactly when the watchdog or the peer has it closed, and lost exactly at a disconnect |
| OrderSession.DisconnectResets | src/roq/deribit/gateway/order_entry.cpp:352-365 | a lost connection leaves a new session except for the table of requests |
| OrderSession.LoginTakesThreeMessages | src/roq/deribit/gateway/order_entry.cpp:411-435 | a login on any connection leaves the counter at 3 and the table as it was |
| OrderSession.ReconnectMisattributes | src/roq/deribit/gateway/order_entry.cpp:352-365 | a run of two connections in which a reject of the second request is attributed to the first |
| OrderSession.OrderEntry.OnTimerEvent | src/roq/deribit/gateway/order_entry.cpp:124-160 | what a timer sends, closes and remembers, in each state |
| OrderSession.OrderEntry.SendMessage | src/roq/deribit/gateway/order_entry.cpp:1083-1105 | the counter goes up before it is used |
| OrderSession.OrderEntry.SendTestRequest | src/roq/deribit/gateway/order_entry.cpp:964-975 | remembers the time only if no request is open |
| OrderSession.OrderEntry.SendLogon | src/roq/deribit/gateway/order_entry.cpp:929-948 | remembers the time in any case |
| OrderSession.OrderEntry.OnConnected | src/roq/deribit/gateway/order_entry.cpp:343-350 | arms the logon with the time of connecting |
| OrderSession.OrderEntry.OnDisconnected | src/roq/deribit/gateway/order_entry.cpp:352-365 | everything starts over, except the table of requests |
| OrderSession.OrderEntry.OnLogon | src/roq/deribit/gateway/order_entry.cpp:454-459 | answers the watchdog and starts the download |
| OrderSession.OrderEntry.OnLogout | src/roq/deribit/gateway/order_entry.cpp:461-469 | sends a logout, then closes; the connection status stays as it is |
| OrderSession.OrderEntry.OnHeartbeat | src/roq/deribit/gateway/order_entry.cpp:437-440 | answers the watchdog |
| OrderSession.OrderEntry.OnTestRequest | src/roq/deribit/gateway/order_entry.cpp:478-482 | is answered by a heartbeat |
| OrderSession.OrderEntry.OnResendRequest | src/roq/deribit/gateway/order_entry.cpp:471-476 | closes the connection |
| OrderSession.OrderEntry.LeaveDownloadState | src/roq/deribit/gateway/order_entry.cpp:411-435 | the next download state is visited only from the one named; the last one makes the session ready |
| OrderSession.OrderEntry.CancelAllOrders | src/roq/deribit/gateway/order_entry.cpp:289-339 | sends and acknowledges only in status READY and with a filter the exchange offers |
| OrderSession.OrderEntry.SendOrderAction | src/roq/deribit/gateway/order_entry.cpp:197-287 | sends only in status READY and, for a create order, without stop price and show quantity; enters the table only under a number not yet there |
| OrderSession.OrderEntry.OnRejectEvent | src/roq/deribit/gateway/order_entry.cpp:830-884 | attributes, warns, closes or ends the process, in the order of the tests |
| OrderActions.ReadyIffCompleted | src/roq/deribit/gateway/order_entry.cpp:411-435 | over every run the status is READY iff a download was completed and since then the connection was not lost, the peer did not log on and no logon was sent |
| OrderActions.ActionSentIff | src/roq/deribit/gateway/order_entry.cpp:197-287 | over every run an order action is sent, with the next number, iff that is so and the action is supported; a logout does not enter into it |
| OrderActions.LogoutDoesNotStopOrders | src/roq/deribit/gateway/order_entry.cpp:461-469 | after any run a logout changes nothing in whether an order action is sent |
| OrderActions.OrderAfterLogout | src/roq/deribit/gateway/order_entry.cpp:461-469 | a run in which an order action is sent on the closing connection after the logout |
| Watchdog.EarliestAskIsRemembered | src/roq/deribit/gateway/order_entry.cpp:124-160 | over every run the remembered time is that of the earliest logon or test request not yet answered, and 0 iff there is none |
| Watchdog.WatchdogClosesIff | src/roq/deribit/gateway/order_entry.cpp:124-131 | the watchdog closes at a timer iff the link is up, the timeout is set, and some ask older than the timeout is still open |
| Watchdog.WatchdogGivesUpTheLink | src/roq/deribit/gateway/order_entry.cpp:126-131 | when the watchdog closes, the link is up before and given up after |
| Watchdog.PingsAreSpaced | src/roq/deribit/gateway/order_entry.cpp:140-144 | over every run two test requests of one connection are at least the ping interval apart |
| Watchdog.LogonTimeIsOfConnection | src/roq/deribit/gateway/order_entry.cpp:343-350 | over every run the logon time is that of the connection that still waits for its logon, and 0 iff none does |
| Watchdog.AnsweringPeerIsNeverClosed | src/roq/deribit/gateway/order_entry.cpp:437-459 | a peer that answers every ask within the timeout is never closed by the watchdog |
| Watchdog.SilentPeerIsClosed | src/roq/deribit/gateway/order_entry.cpp:124-160 | a peer silent since any moment at which the session is ready is closed no later than ping interval, timeout and two timer gaps after it |
| Fills.ComputeLastTraded | src/roq/deribit/gateway/order_entry.cpp:599-611 | the reported values without fills; otherwise the sum, and an average with average times sum equal to the sum of price times quantity, missing iff the sum is zero |
| Fills.AverageLiesBetween | src/roq/deribit/gateway/order_entry.cpp:599-611 | with positive quantities the average lies within any bounds of the fill prices |
| Fills.TotalsIgnoreOrder | src/roq/deribit/gateway/order_entry.cpp:599-611 | permuted fills have the same quantity and value |
| Fills.AverageIsUnique | src/roq/deribit/gateway/order_entry.cpp:599-611 | and the same average |
| Fills.TotalsAdd | src/roq/deribit/gateway/order_entry.cpp:603-608 | totals of concatenated fills add up |
| Fills.FindLiquidityInd | src/roq/deribit/gateway/order_entry.cpp:578-593 | the result is a defined indicator iff the set of defined indicators is exactly that one |
| FixReader.Connection.OnRead | src/roq/deribit/gateway/order_entry.cpp:367-404 | the read loop takes all complete messages and drains exactly their bytes |
| FixReader.ChunkingDoesNotMatter | src/roq/deribit/gateway/order_entry.cpp:367-404 | however the stream is cut into reads, messages and left-over bytes are those of one read of all of it |
| FixReader.LaterBytes | src/roq/deribit/gateway/market_data.cpp:277-315 | later bytes only add messages to what earlier bytes gave |
| FixReader.NothingIsLost | src/roq/deribit/gateway/order_entry.cpp:367-404 | messages and rest are the stream; each message is complete and the rest holds none |
| FixReader.SentIsParsed | src/roq/deribit/gateway/market_data.cpp:277-315 | complete messages sent back to back come out as they were sent, under any cut |
| FixReader.LineMeetsTheContract | src/roq/deribit/gateway/order_entry.cpp:371-398 | a reader with the assumed contract exists |
| Batching.BatchesPartition | src/roq/deribit/gateway/market_data.cpp:812-851 | the requests put together are the list, each is non-empty and within the limit, all but the last are full, and there are ceil(n/max) of them |
| Batching.BatchesAreUnique | src/roq/deribit/gateway/market_data.cpp:812-851 | no other split has these properties |
| MarketData.MarketData.SendBatches | src/roq/deribit/gateway/market_data.cpp:822-849 | the loop over one reused buffer sends exactly these batches, every request a subscription at the configured depth or every one an unsubscription; nothing of an earlier batch leaks into a shorter one |
| MarketData.RequestsPartition | src/roq/deribit/gateway/market_data.cpp:812-888 | for any non-empty list: requests of the one kind only, the configured depth and update type on subscriptions and none on unsubscriptions, their symbols put together being the list, each non-empty and within the limit, all but the last full |
| MarketData.MarketData.SubscribeTo | src/roq/deribit/gateway/market_data.cpp:812-851 | sends subscriptions only, and nothing for an empty list |
| MarketData.MarketData.UnsubscribeFrom | src/roq/deribit/gateway/market_data.cpp:853-888 | the same batches, unsubscriptions only |
| MarketData.MarketData.Resubscribe | src/roq/deribit/gateway/market_data.cpp:890-902 | an unsubscription and then a subscription at the configured depth, both for the symbol alone, and nothing if it is latched |
| MarketData.MarketData.Sort | src/roq/deribit/gateway/market_data.cpp:552-594 | the loop splits the entries by type, in order, and finds the latest date |
| MarketData.MarketData.OnIncrementalRefresh | src/roq/deribit/gateway/market_data.cpp:524-645 | what is published, latched and requested, for every latch and verdict of the dispatcher |
| MarketData.MarketData.OnSnapshotFullRefresh | src/roq/deribit/gateway/market_data.cpp:656-749 | unlatches first, even for a message without a book |
| LatchRuns.LatchedIffHeld | src/roq/deribit/gateway/market_data.cpp:656-665 | over every history a symbol is latched iff one of its books was refused and no snapshot message of it came since |
| LatchRuns.LatchRefinement | src/roq/deribit/gateway/market_data.cpp:595-617 | over every history the incremental books dispatched are the history without those held back, and the requests are one resubscription an episode besides the subscriptions asked for |
| LatchRuns.EpisodeResubscribes | src/roq/deribit/gateway/market_data.cpp:890-902 | the refusal that starts an episode adds exactly an unsubscription and then a subscription, both for its symbol alone |
| BookContents.UpdatesTell | src/roq/deribit/gateway/market_data.cpp:552-645 | over every run each published update is of one message: the bids are exactly its bid entries and the asks its offer entries, in order, likewise trades; index values and settlement prices each under their kind behind open interest and mark price; at the latest of the dates |
| BookContents.SelectIsSelection | src/roq/deribit/gateway/market_data.cpp:552-594 | sorting keeps exactly the entries of a type, none missing, in order |
| BookContents.BookIffEntries | src/roq/deribit/gateway/market_data.cpp:595-596 | a message has a book to publish iff books are published and it has a bid or an offer |
| BookContents.TradesIffEntries | src/roq/deribit/gateway/market_data.cpp:618-619 | a message has trades to publish iff trades are published and it has one |
| BookContents.BadSnapshotIsLast | src/roq/deribit/gateway/market_data.cpp:720-733 | a refused snapshot ends what its message publishes, right behind its book |
| LatchRuns.EpisodesAreSeparated | src/roq/deribit/gateway/market_data.cpp:890-902 | between two resubscriptions of a symbol lies a snapshot message of it |
| LatchRuns.OneLastPerMessage | src/roq/deribit/gateway/market_data.cpp:610-641 | of the updates one message publishes exactly the final one is marked last |
| DropCopy.Rest.OnGetCurrenciesAck | src/roq/deribit/gateway/rest.cpp:284-300 | passes on each currency not seen before, once, in order |
| DropCopy.FreshIsNew | src/roq/deribit/gateway/rest.cpp:284-300 | what is passed on is distinct and is what the answer has and the client did not know |
| DropCopy.FreshKeepsOrder | src/roq/deribit/gateway/rest.cpp:284-300 | the new currencies are passed on in the order in which the answer named them |
| DropCopy.DropCopy.OnGetCurrencies | src/roq/deribit/gateway/drop_copy.cpp:103-113 | new currencies are remembered, and requested at once iff the session is ready and the latch was given |
| DropCopy.DropCopy.OnLatch | src/roq/deribit/gateway/drop_copy.cpp:115-126 | only the first latch does anything |
| DropCopy.DropCopy.OnLoggedIn | src/roq/deribit/gateway/drop_copy.cpp:226-271 | all download states in order, those for currencies only after the latch |
| DropCopy.DropCopy.OnDisconnected | src/roq/deribit/gateway/drop_copy.cpp:184-191 | the queue is dropped; currencies and latch stay |
| DropCopy.DropCopy.CheckSubscribeQueue | src/roq/deribit/gateway/drop_copy.cpp:574-577 | messages leave the queue from the front |
| DropCopy.DropCopy.RequestAccountSummary | src/roq/deribit/gateway/drop_copy.cpp:519-535 | one request a currency, in order |
| DropCopy.DropCopy.RequestUserTradesByCurrency | src/roq/deribit/gateway/drop_copy.cpp:538-558 | one request a currency, in order |
| DropCopy.ExactlyOnce | src/roq/deribit/gateway/drop_copy.cpp:103-126 | under every interleaving and for every name, once logged in and latched each currency ever announced has each of its three requests enqueued exactly once on the current connection and no other any, each subscription not for a currency exactly once after login; only the portfolio of the empty name is subscribed to once more, iff the connection was opened with no currency known |
| DropCopy.FlagsFromEvents | src/roq/deribit/gateway/drop_copy.cpp:115-126 | ready means logged in on this connection; the latch, once given, stays over all connections |
| DropCopy.ServiceKeepsOrder | src/roq/deribit/gateway/drop_copy.cpp:574-577 | requests are sent in the order in which they were enqueued |
| DropCopy.EmptyPortfolioIff | src/roq/deribit/gateway/drop_copy.cpp:462-475 | over every run, unless such a currency was announced, the portfolio of the empty name is subscribed to once iff no currency was known at the event that first made the session both ready and latched on this connection, and otherwise not at all |
| DropCopy.SentExactlyOnce | src/roq/deribit/gateway/drop_copy.cpp:574-577 | when the queue has drained each was sent exactly once |
| DropCopy.EmptyJoinNamesNothing | src/roq/deribit/gateway/drop_copy.cpp:462-475 | such a run: the latch and a login before any currency is known |
| SignatureClock.Crypto.GetSequence | src/roq/deribit/tools/crypto.cpp:95-102 | a number larger than any before and not below the time asked for |
| SignatureClock.Crypto.CreateSignature | src/roq/deribit/tools/crypto.cpp:54-63 | signs the number it hands out |
| SignatureClock.Crypto.CreateRawData | src/roq/deribit/tools/crypto.cpp:78-82 | writes the number it takes, both users sharing one clock |
| SignatureClock.ValuesAreFresh | src/roq/deribit/tools/crypto.cpp:95-102 | over every call sequence the numbers strictly rise, are positive and not below the times asked for |
| SignatureClock.ValuesAreLeast | src/roq/deribit/tools/crypto.cpp:95-102 | position by position they are the least such sequence |
| SignatureClock.ClockIsTheMaximum | src/roq/deribit/tools/crypto.cpp:95-102 | the clock is the maximum of the number of calls and of all times, each moved on by the calls since |
| SignatureClock.RawDataIsUnambiguous | src/roq/deribit/tools/crypto.cpp:78-82 | number and nonce can be read off the raw data in one way only |
| SignatureClock.RawDataReads | src/roq/deribit/tools/crypto.cpp:78-82 | raw data are the number in at least 13 digits, padded with zeros no further than that, a dot, and the nonce |
| SignatureClock.SignatureTextReads | src/roq/deribit/tools/crypto.cpp:54-57 | the signed text is the number without leading zeros, a newline, the nonce, and a newline |
| SignatureClock.SignatureTextIsUnambiguous | src/roq/deribit/tools/crypto.cpp:54-57 | likewise for the text that is signed |
| SignatureClock.SignedTextsNeverRepeat | src/roq/deribit/tools/crypto.cpp:54-82 | one clock never has the same text signed, nor the same raw data sent, twice, whatever the nonces |
| ChannelNames.WebSocket.Subscribe | src/roq/deribit/gateway/web_socket.cpp:497-508 | which messages are queued, by the settings, and nothing for an empty list |
| ChannelNames.TextsBySettings | src/roq/deribit/gateway/web_socket.cpp:497-508 | which messages go out, and in which order, for each combination of settings |
| ChannelNames.TextsOfOne | src/roq/deribit/gateway/web_socket.cpp:510-565 | the three messages for one symbol, written out |
| ChannelNames.WebSocket.SubscribeQuote | src/roq/deribit/gateway/web_socket.cpp:510-524 | the text written equals the reference list of channels |
| ChannelNames.WebSocket.SubscribeTicker | src/roq/deribit/gateway/web_socket.cpp:526-543 | likewise, with the interval between names and at the end |
| ChannelNames.WebSocket.SubscribeChartTrades | src/roq/deribit/gateway/web_socket.cpp:545-565 | likewise, and each symbol is queued for its time series, in order |
| ChannelNames.ListNamesEachChannel | src/roq/deribit/gateway/web_socket.cpp:510-565 | read as a list of strings, the text of a non-empty list names exactly one channel a symbol, in order |
| ChannelNames.EmptyListNamesOne | src/roq/deribit/gateway/drop_copy.cpp:462-475 | the text of an empty list names one channel, with an empty name |
| ChannelNames.TokenIsOfParts | src/roq/deribit/protocol/json/parser.cpp:52-80 | the token depends on the first two dot-separated parts alone |
| ChannelNames.ParseChannel | src/roq/deribit/protocol/json/parser.cpp:91-112 | the kind, and the third part of a chart channel that has a fourth; the interval is always 0 |
| ChannelNames.KindIsRecovered | src/roq/deribit/protocol/json/parser.cpp:52-80 | the kind of every quote, ticker, chart and portfolio channel is recovered, whatever the name and interval |
| ChannelNames.FixedKindsAreRecovered | src/roq/deribit/gateway/drop_copy.cpp:477-517 | the kind of the channels with a fixed name is recovered: user changes, orders and trades, platform state, instrument state |
| ChannelNames.SymbolRecoveredIff | src/roq/deribit/protocol/json/parser.cpp:99-109 | the symbol of a chart channel is recovered iff it has no dot |

## Left out

- Messages that end the process when they come on the wrong channel (udp_snapshot.cpp:197-203, udp_events.cpp:462-472): the sender of the model does not publish them there, and the theorems about events say nothing of a stream with such messages.
- Block lengths that no sample datagram shows (SnapshotStart, SnapshotEnd, ComboLegs, PriceIndex, Rfq): parameters of `SbeFormat.Schema`; the generated codecs are not part of this model.
- The fields inside an SBE root block or group entry: bytes; the mapping to prices and sides is not modelled.
- SbeParser.DispatchDatagram: does not model a handler that reads only part of a body cut short, nor the debug logging and tracing around the handler calls; such a datagram ends as Truncated, where the program asserts, throws or reads past the end depending on the build.
- EventsRuns.EventsHandOverTails: does not model the sequencer clearing itself on BadState, which is visible only as a change of readiness.
- FixReader.ChunkingDoesNotMatter: does not model exceptions out of a message handler, after which the program drains nothing.
- Inbound FIX message numbers (order_entry.cpp:1107-1125): they are only logged.
- The test settings of the order session, and order entry's reports on positions, executions and cancels.
- OrderSession.NumberingRestartsWithEachConnection: does not model that the two clocks behind timers and events may differ; one time is given to each event.
- Watchdog.SilentPeerIsClosed: does not model a peer that sends messages other than answers; silence here means that nothing arrives.
- Fills.ComputeLastTraded: does not model rounding and the tolerance of the zero test.
- Levels whose side is undefined (udp_snapshot.cpp:239-241, udp_events.cpp:271-273): the program asserts, a level of the model is a bid or an ask.
- Throttling and the rate limiter: a service of the queue may send any number of messages.
- DropCopy.DropCopy.RequestUserTradesByCurrency: does not model the start time of the request, a setting subtracted from the clock.
- Authentication errors, which close the connection or end the process.
- SignatureClock.Crypto.CreateSignature: does not model the digest, only the text it is taken of.
- Overflow of the 64-bit millisecond clock.
- ChannelNames.ListNamesEachChannel: does not model JSON escapes; names hold no quote, backslash or control character.
- Top-of-book and trading-status change filters of the web socket, its download states and its REST requests: each compares one field with the last value.
- Symbol slices, the connection managers, TLS, REST and configuration.
- Tables of enum values, and the tools, bridges and demo strategies.
