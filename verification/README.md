# A model of a light-client peer connection

This project models, in Dafny, the protocol stack of a small libp2p-style client and the GRANDPA warp sync
that runs on top of it, and proves what the code keeps over every input and every run.

The stack, from the bottom up:

- **Noise transport** (`Noise`, `NoiseHandshake`, `Protobuf`): writes are cut into chunks, sealed one by one by
  an abstract cipher and framed with a 16-bit length; the handshake payload is a nested protobuf message.
- **Yamux session** (`Header`, `YamuxStream`, `YamuxFlow`, `YamuxOrder`, `YamuxView`, `YamuxDrain`, `YamuxRuns`,
  `YamuxReading`, `YamuxSession`): streams with send and receive windows, a round-robin writer that drains per-stream
  queues, and a reader with half-close and reset states.
- **Multistream layer** (`Varint`, `FrameBuffer`, `MultistreamView`, `MultistreamChunks`, `Negotiation`, `Multistream`):
  protocol negotiation per stream, run at both ends, and messages reassembled from chunks within a size limit.
- **Connection** (`ConnectionView`, `ConnectionRuns`, `ConnectionOwners`, `ConnectionSafety`, `ConnectionWire`,
  `ConnectionHeard`, `ConnectionAnswers`, `ConnectionNews`, `ConnectionReplies`, `ConnectionHalfOpen`, `ConnectionFacts`,
  `Connection`): requests, incoming requests and two-sided subscriptions routed over the streams;
  `ConnectionStack` puts a connection on its session.
- **The whole stack** (`EndToEnd`): a list of messages sent on a stream over any run of one session is the list handed
  over above the session at the other end. The program only dials, so its own streams are odd and it takes even ones from
  its peer: no two of its sessions, both started new, come to share a stream, and one of the two ends stands for a
  listening peer with the same writer or the same reader.
- **Warp sync** (`Ancestry`, `Grandpa`): the descendant closure, the weighted supermajority count with its early
  exit, and the fold over fragments that moves the trusted authority set.

Code that changes state step by step is a class (`Session`, `YamuxMultistream`, `Connection`,
`MultistreamFrameBuffer`, `NoiseWriteStream`, `NoiseReadStream`, `Encoder`, `GrandpaState`). Each of its methods is
proved to take the class's value to the value a specification function gives; the theorems are about those
functions, over whole runs. `await` is read as a step boundary: any call may come between two turns of a `next`
loop, wherever it was cancelled. The connection runs over the multistream layer itself, not over an assumption
about it; the only thing it relies on of the session below is that streams opened by the peer are even, which
`ConnectionStack.EveryStackIsSafe` shows with the session underneath. Response identifiers are opaque in the source and
only ever name such streams, so a `respond` call names an even one. `Connection.Valid()` holds everything that is
shown of whole runs, so the class's callers have it between any two calls; `Session.Valid()` says the same of a session.

## What turned out false, and exactly when it holds

- *A stream's data is written in the order it was queued.* The writer sends a data message it cannot start to the
  **back** of its queue (`src/layers/yamux.rs:755-759`), so a FIN queued behind it goes out first
  (`YamuxStream.CloseOvertakesBlockedData`). Over a stream's whole life, any number of drains long, what was written and
  then what is queued is what was asked for if and only if no visit of the writer met a blocked data message with
  others behind it (`YamuxOrder.OrderOverEveryLife`; from the bytes on the wire, `YamuxRuns.WireRoundTrip`). On the bare
  stream, where empty data may be sent, it is in order at every moment if and only if no such message was moved
  behind something unlike it (`YamuxOrder.AlwaysInOrderExactly`). Whether it will happen can be read off a queue
  before a drain (`YamuxStream.OrderExactlyWhenFits`).
- *Every request gets exactly one response* (`src/connection.rs:149`, `src/connection.rs:319-320`). Two things leave one
  unanswered. When the peer breaks the negotiation the multistream layer resets the stream without an output
  (`src/layers/yamux_multistream.rs:407-410`; `ConnectionSafety.PeerCanStrand`). And when a PING or GO AWAY names the
  stream, the session resets it without one (`src/layers/yamux.rs:620-626`, `src/layers/yamux.rs:641-647`;
  `ConnectionStack.PingCutsOff`). With connection and session at rest, without a timeout or a cancellation, the request
  can still be answered if and only if the multistream layer has its stream, and the session is up and has it in a
  state other than `Reset` (`ConnectionStack.AnswerableExactlyWhileHeard`). What does hold in every run is at most
  one response and exactly one place per request, and which response it is follows from what was heard of its stream
  (`ConnectionAnswers.AnsweredExactly`).
- *Dialer and listener agree on a protocol.* Three things get in the way. A refusal is the message "na", which a dialer
  that proposed a protocol called "na" takes for acceptance. A proposal that does not fit the listener's 1024 bytes, and a
  header or an answer that does not fit the dialer's configured maximum, cut the stream
  (`src/layers/yamux_multistream.rs:293-301`). With both ends run through their layers, and the bytes in any chunks, both
  have the first acceptable protocol, or none when there is none, and neither cut the stream, if and only if no "na" is
  refused on the way and every proposal and answer up to there fits when its chunks are reported
  (`Negotiation.NegotiationAgrees`). They end up with different protocols if and only if a refused "na" was misread or the
  dialer cut the stream on the acceptance (`Negotiation.NegotiationDiffers`). For every chunking: a name of 1024 bytes or
  more is cut (`Negotiation.LongNameIsCut`), a dialer's maximum below 19 bytes gets it no protocol
  (`Negotiation.HeaderIsCut`), and where each proposal and each answer, with the header before it, is within the limits,
  all fit (`Negotiation.ShortNamesAgree`).
- *The configured maximum is the largest message* (`src/layers/yamux_multistream.rs:62-66`). What is compared with it is
  what is buffered, without a length already read, plus the chunk just reported. So a message of exactly the maximum is
  cut when it comes in one report with its length, and handed over when its length comes first
  (`MultistreamChunks.ChunkingDecides`); a stream that is not closed, reset or opened anew survives if and only if each
  chunk fits in that sense (`MultistreamChunks.SurvivesExactlyWhenChunksFit`). No chunking lets a longer message through
  (`MultistreamChunks.OversizedIsCut`), and every chunking of no more bytes than the maximum fits
  (`MultistreamChunks.FewBytesFit`).
- *The receive window is the credit the peer has, with the updates still queued.* `close_stream_immediately` throws away
  queued window updates together with the queue (`src/layers/yamux.rs:308-324`), and a peer it leaves without credit
  never gets any again unless it overruns what it has (`YamuxFlow.DiscardedCreditIsLost`, `YamuxFlow.StarvedForGood`). The
  equality holds over a stream's life if and only if a queue was discarded only when no update was in it, and data taken
  in only as far as the window covered it (`YamuxFlow.WindowIsCreditPlusQueued`).
- *More than two thirds of the weight.* The threshold is computed in 64 bits and is right if and only if twice the
  total fits (`Grandpa.ThresholdExactly`); beyond that one unit of weight in 2^63 can be enough
  (`Grandpa.WrappedThresholdAcceptsAlmostNothing`).
- *A protobuf field comes back with its number.* The tag is shifted in 64 bits; true if and only if every number is
  below 2^61 (`Protobuf.RoundTrip`).
- *A varint is read as the number it stands for.* The high bits of a tenth byte are dropped: nine bytes of 128 and a
  tenth of 2 stand for 2^64 and are read as 0 (`Varint.TenthByteIsLost`). What decodes is read exactly if and only if it
  has at most nine bytes or a tenth below 2 (`Varint.ReadExactly`).
- *A value comes only after "opened".* Only the inbound side is looked at (`src/connection.rs:871-878`;
  `ConnectionHalfOpen.ValueBeforeOpened`, a run from a new connection). A value handed over is for a subscription the user
  was last told is open if and only if our side of it is open (`ConnectionSafety.ValueFollowsOpenedExactly`).
- *"Closed" is said only of an open subscription.* Cancelling says it of any configured protocol
  (`src/connection.rs:457-490`; `ConnectionSafety.ClosedWithoutOpened`). It reaches a user last told the subscription is
  open if and only if both sides are (`ConnectionSafety.ClosedFollowsOpenedExactly`).

## Model

| member | source | states |
|---|---|---|
| Varint.Encode | src/utils/varint.rs:20-41 | writes exactly the base-128 encoding at the cursor, at most ten bytes, and nothing else in the slice |
| Varint.EncodedFitsU64 | src/utils/varint.rs:43-50 | a u64 never needs more than the ten bytes callers reserve |
| Varint.Feed | src/utils/varint.rs:113-130 | one byte takes the decoder to a value, to wanting more, or out of range, as the specification of the whole byte string says |
| Varint.DecodeValidBytes | src/utils/varint.rs:132-139 | the shift-and-or loop computes the number the bytes stand for, modulo 2^64 |
| Varint.Decode | src/utils/varint.rs:54-69 | reads one integer off a cursor or says why not, and always makes progress |
| Varint.DecodeInvertsEncode | src/utils/varint.rs:20-69 | decoding inverts encoding for every u64, whatever follows |
| Varint.ScanMeaning | src/utils/varint.rs:113-139 | exactly which byte strings decode, to which number and with what left over |
| Varint.ReadExactly | src/utils/varint.rs:132-139 | what decodes is read without loss if and only if it has at most nine bytes or a tenth below 2 |
| Varint.TenthByteIsLost | src/utils/varint.rs:132-139 | an input that stands for 2^64 and is read as 0 |
| Varint.ScanExtends | src/utils/varint.rs:113-130 | a verdict reached on a prefix stands when more bytes arrive |
| FrameBuffer.MultistreamFrameBuffer.Feed | src/layers/yamux_multistream/frame_buffer.rs:49-51 | appends to the bytes pending |
| FrameBuffer.MultistreamFrameBuffer.Next | src/layers/yamux_multistream/frame_buffer.rs:54-94 | the incremental state machine gives the verdict that parsing all pending bytes from scratch gives, and drops exactly the frame it hands back; a failed buffer stays failed |
| FrameBuffer.MultistreamFrameBuffer.ReadLengthByte | src/layers/yamux_multistream/frame_buffer.rs:61-79 | popping one length byte loses no pending byte, or the length is too long |
| FrameBuffer.ParseFramed | src/layers/yamux_multistream/frame_buffer.rs:54-94 | a length-prefixed payload parses back, whatever follows it |
| FrameBuffer.ParsePrefix | src/layers/yamux_multistream/frame_buffer.rs:54-94 | any prefix of framed payloads yields the first payload or waits, and waits only while bytes are missing |
| FrameBuffer.MessagesExtend | src/layers/yamux_multistream/frame_buffer.rs:49-51 | more bytes only add messages at the end |
| FrameBuffer.ChunkingIndependence | src/layers/yamux_multistream/frame_buffer.rs:49-94 | for any payloads and any split of their encodings across feeds, with any asks in between, the frames returned are a prefix of the payloads, and all of them once everything is fed and nothing is ready |
| Header.DecodeEncode | src/layers/yamux/header.rs:100-130 | decoding inverts encoding for version 0; another version is reported |
| Header.Layout | src/layers/yamux/header.rs:100-108 | what the twelve bytes are: version, type, and flags, stream and length high byte first |
| Header.EncodeDecode | src/layers/yamux/header.rs:110-130 | a header is accepted exactly for version 0 and a known type, and then is the encoding of what was decoded |
| Header.ParseSerialize | src/layers/yamux/header.rs:100-130 | the bytes of any list of well-formed frames parse back into that list |
| YamuxStream.VisitAmounts | src/layers/yamux.rs:708-796 | a visit of the writer moves payload from window to wire and credit from queue to wire, at most 64 KiB, and leaves less to write unless it writes nothing |
| YamuxStream.VisitAnnounces | src/layers/yamux.rs:708-743 | which frame goes out for each message that is not data, and what it leaves |
| YamuxStream.VisitSends | src/layers/yamux.rs:744-796 | of a data message as much goes out as window and 64 KiB allow, and where what is left stays |
| YamuxStream.VisitKeepsOrder | src/layers/yamux.rs:708-796 | written so far, then still queued, is what was queued, unless a blocked data message is sent to the back |
| YamuxStream.OrderExactlyWhenFits | src/layers/yamux.rs:744-797 | one drain keeps the order of the queue it starts with if and only if every data message with others behind it fits the window |
| YamuxStream.CloseOvertakesBlockedData | src/layers/yamux.rs:755-759 | a concrete queue whose FIN is written before its blocked data |
| YamuxStream.StopsOnlyWhenBlocked | src/layers/yamux.rs:694-797 | when the writer stops, a stream has an empty queue or no send window |
| YamuxFlow.QueueDataAppends | src/layers/yamux.rs:250-280 | queued data extends what was asked for byte for byte |
| YamuxFlow.QueueDataKeepsShape | src/layers/yamux.rs:250-280 | and keeps the shape of the queue: no empty data, no two data messages side by side |
| YamuxFlow.ReceivingKeepsBalance | src/layers/yamux.rs:498-529 | receiving data keeps both ledgers, with the window back within 256 to 512 KiB |
| YamuxFlow.ApplyKeepsBalance | src/layers/yamux.rs:250-365 | every call, frame and visit keeps both ledgers |
| YamuxFlow.LedgersBalanceOverEveryLife | src/layers/yamux.rs:498-529 | over every run of a stream: payload written plus send window is 256 KiB plus the updates received (never more, equal until the sum saturates), and 256 KiB to 512 KiB of receive window while the peer may send |
| YamuxFlow.WindowIsCreditPlusQueued | src/layers/yamux.rs:739-743 | over every life of a stream the receive window is the peer's credit plus the updates still queued if and only if no event lost credit; then a peer that may send has 256 KiB once the updates are written |
| YamuxFlow.LifeLoses | src/layers/yamux.rs:308-365 | credit is lost by exactly the events that discard a queued update or take in data beyond the window, and is never found again |
| YamuxFlow.WithinCreditIsHarmless | src/layers/yamux.rs:498-502 | while nothing is lost, data within the peer's credit is within the window |
| YamuxFlow.DiscardedCreditIsLost | src/layers/yamux.rs:308-324 | a concrete run that leaves the peer without credit |
| YamuxFlow.StarvedForGood | src/layers/yamux.rs:498-529 | whatever either side does, such a peer never gets credit again unless it overruns what it has |
| YamuxOrder.OrderOverEveryLife | src/layers/yamux.rs:744-797 | over every life of a stream, any number of drains long, everything written and then everything queued is everything asked for if and only if no visit overtook |
| YamuxOrder.LifeKeepsOrder | src/layers/yamux.rs:708-796 | without overtaking the order holds whatever was sent |
| YamuxOrder.AlwaysInOrderExactly | src/layers/yamux.rs:752-760 | empty sends included, in order at every moment if and only if no blocked message was moved behind something unlike it |
| YamuxView.OpenKeepsSound | src/layers/yamux.rs:226-245 | opening a stream takes a new odd identifier and keeps the session sound |
| YamuxView.ReceiveKeepsSound | src/layers/yamux.rs:427-668 | any frame keeps the session sound |
| YamuxView.VerdictExactly | src/layers/yamux.rs:427-668 | the session ends on the peer's goodbye alone, and fails for exactly the listed reasons |
| YamuxView.NoticesExactly | src/layers/yamux.rs:531-613 | what the user is told of a frame: opened, its payload, closed, in this order, and nothing if it reaches no stream |
| YamuxView.TakenExactly | src/layers/yamux.rs:481-613 | windows, state and queue of the stream that a frame reaches or opens, and no other entry changed |
| YamuxView.OtherwiseExactly | src/layers/yamux.rs:614-648 | a PING or GO AWAY naming a stream resets it, and no other frame changes the table |
| YamuxView.AnswersExactly | src/layers/yamux.rs:614-634 | what the session itself answers: a ping's number back, and a reset to a stream there is no room for |
| YamuxView.ReopenedBetween | src/layers/yamux.rs:498-556 | between "closed" and a later "data" on one stream there is an "opened" |
| YamuxRuns.EveryRunIsSound | src/layers/yamux.rs:427-668 | every interleaving of calls, drains and frames keeps: no data after close, identifier parity, balanced ledgers |
| YamuxRuns.EverySessionIsSound | src/layers/yamux.rs:191-224 | hence every session that started new is sound |
| YamuxRuns.RunProjects | src/layers/yamux.rs:671-825 | a run, seen from a stream that stays in the table, is that stream's own life, and what the writer wrote for it is what that life wrote |
| YamuxRuns.WireParses | src/layers/yamux.rs:680-687 | what a run puts on the wire, the session's own frames and the drains', parses back into exactly those frames |
| YamuxRuns.WireRoundTrip | src/layers/yamux.rs:694-802 | over every run and any number of drains, from the bytes alone a reader recovers what a stream was asked to carry, in order up to what is still queued, for every ring split and interleaving, if and only if no visit overtook |
| YamuxReading.HeardIsReported | src/layers/yamux.rs:427-556 | what a run reports of a stream is the payload of the frames for it, in order, as long as each finds the stream able to receive |
| YamuxReading.OpenIsHeard | src/layers/yamux.rs:481-496 | which is so for an open stream we do not reset, if the peer's frames on it are plain until its last payload |
| YamuxDrain.PassVisitsEach | src/layers/yamux.rs:702-797 | a pass visits each stream exactly once, independently of the others |
| YamuxDrain.DrainFollowsEach | src/layers/yamux.rs:694-797 | a drain, seen from one stream, is that stream's visits |
| YamuxDrain.PassProgress | src/layers/yamux.rs:694-797 | a pass that writes leaves strictly less to write, one that does not changes no amount |
| YamuxDrain.DrainRoundTrip | src/layers/yamux.rs:694-802 | from one drain's bytes alone a reader recovers the queue each stream started it with, in order up to what is held back, if and only if that queue fits |
| YamuxDrain.DrainConservesWork | src/layers/yamux.rs:694-797 | a drain leaves a stream with an empty queue or no window, and charges the window exactly |
| YamuxDrain.EachPassIsFair | src/layers/yamux.rs:708-796 | no pass writes more than one message or 64 KiB of payload for a stream |
| YamuxDrain.DrainKeepsSound | src/layers/yamux.rs:671-825 | a drain keeps the session sound |
| YamuxDrain.SortedKeys | src/layers/yamux.rs:708-711 | the order in which the streams are walked: every key once, ascending |
| YamuxSession.Session.OpenStream | src/layers/yamux.rs:226-245 | keeps the session sound; the identifier given out is odd and new, its stream has full windows and the opening queued |
| YamuxSession.Session.SendData | src/layers/yamux.rs:250-280 | keeps the session sound; data is queued, or refused exactly when the stream is unknown or a close or reset is queued last |
| YamuxSession.Session.CloseStream | src/layers/yamux.rs:285-303 | keeps the session sound; one FIN is queued |
| YamuxSession.Session.CloseStreamImmediately | src/layers/yamux.rs:308-324 | keeps the session sound; the queue is replaced by FIN |
| YamuxSession.Session.ResetStreamImmediately | src/layers/yamux.rs:346-365 | keeps the session sound; the queue is replaced by RST and the stream ignores what follows |
| YamuxSession.Session.NegotiateNewStream | src/layers/yamux.rs:834-875 | which streams of the peer's are refused, turned away or welcomed, and what that changes |
| YamuxSession.Session.AbsorbData | src/layers/yamux.rs:498-529 | window, RST, FIN and window update as the specification of one stream says |
| YamuxSession.Session.ReportData | src/layers/yamux.rs:531-556 | the output returned now and the one held say in order what the frame had to say |
| YamuxSession.Session.DeliverData | src/layers/yamux.rs:481-556 | a data frame on a known stream, with its errors |
| YamuxSession.Session.AbsorbUpdate | src/layers/yamux.rs:586-600 | saturating send window, RST and FIN |
| YamuxSession.Session.DeliverUpdate | src/layers/yamux.rs:558-613 | a window update on a known stream |
| YamuxSession.Session.HandleFrame | src/layers/yamux.rs:427-668 | one frame does what the specification says, the held output is never overwritten, and data handed over is its own frame's payload |
| YamuxSession.Session.Next | src/layers/yamux.rs:371-436 | keeps the session sound; reading stops at the first frame that is not uneventful: the end if and only if finished before or on the peer's goodbye, an error if and only if that frame fails so, an output held or just left; something is read whenever there is something to read |
| YamuxSession.StopsExactly | src/layers/yamux.rs:371-436 | the result of reading, from the frame it stopped at alone |
| YamuxSession.Session.WriteOne | src/layers/yamux.rs:708-796 | the bytes for one message are the serialisation of the frames of one visit |
| YamuxSession.Session.WriteData | src/layers/yamux.rs:744-796 | a data message from two ring slices, capped by window and chunk size |
| YamuxSession.Session.Pass | src/layers/yamux.rs:702-797 | one pass over all streams |
| YamuxSession.Session.DrainStreams | src/layers/yamux.rs:694-797 | the loop ends on every queue state, after whole passes of which the last wrote nothing |
| YamuxSession.Session.WriteNext | src/layers/yamux.rs:671-825 | keeps the session sound; the bytes written are the session's own and then a full drain's |
| YamuxSession.Session.Finish | src/layers/yamux.rs:799-801 | streams that sent a reset are removed |
| MultistreamView.RoundKeepsDrained | src/layers/yamux_multistream.rs:247-345 | only the stream being read may hold a complete frame, so input is taken only when none does |
| MultistreamView.RunDelivers | src/layers/yamux_multistream.rs:247-451 | over any run, what was handed over of a stream is the first messages of the bytes received, and the rest is still held |
| MultistreamView.EveryMessageHandedOver | src/layers/yamux_multistream.rs:247-345 | from any moment on the messages handed over of an established stream are the first messages of what it had pending and received since, and all of them whenever the layer turns to its input, so before a close is reported |
| MultistreamView.RoundPromises | src/layers/yamux_multistream.rs:247-451 | a negotiated stream is never lost without a reported close, a proposal is reported only while it awaits its answer, odd streams never negotiate as listener |
| MultistreamView.RoundAbsent | src/layers/yamux_multistream.rs:266-330 | nothing is reported of a stream the layer does not know until the peer opens it |
| MultistreamView.GivesUpExactly | src/layers/yamux_multistream.rs:347-451 | which message makes the layer give up a stream, in every state |
| MultistreamView.CloseReportedExactly | src/layers/yamux_multistream.rs:306-327 | the peer's close is reported unless it came before the first proposal |
| MultistreamView.CallsExactly | src/layers/yamux_multistream.rs:162-212 | what accepting, rejecting and closing do to a stream, its bytes and its limit |
| MultistreamChunks.SurvivesExactlyWhenChunksFit | src/layers/yamux_multistream.rs:285-304 | over every run that does not close, reset or reopen it, an established stream stays so if and only if each chunk fits the limit beside what is buffered when it is reported |
| MultistreamChunks.ChunkingDecides | src/layers/yamux_multistream.rs:293-301 | one message at a limit of its own size, cut in one chunking and let through in another |
| MultistreamChunks.OversizedIsCut | src/layers/yamux_multistream.rs:293-301 | a message longer than the limit fits in no chunking |
| MultistreamChunks.FewBytesFit | src/layers/yamux_multistream.rs:293-301 | no more bytes than the limit fit in every chunking |
| Negotiation.Receives | src/layers/yamux_multistream.rs:247-451 | messages in any chunks get all their reactions in turn if every chunk fits, and otherwise the stream is cut with some message not reached |
| Negotiation.NegotiationEnds | src/layers/yamux_multistream.rs:347-442 | with both ends run through their layers and any chunking, what each end has in the end follows from the names, the limits and the chunks |
| Negotiation.NegotiationAgrees | src/layers/yamux_multistream.rs:347-442 | both have the first acceptable protocol, or none, uncut, if and only if no "na" is refused on the way and each proposal and answer up to there fits |
| Negotiation.NegotiationDiffers | src/layers/yamux_multistream.rs:395-442 | they have different protocols if and only if a refused "na" was misread or the dialer cut the stream on the acceptance |
| Negotiation.LongNameIsCut | src/layers/yamux_multistream.rs:278-301 | a first name of 1024 bytes or more becomes no protocol, in any chunking |
| Negotiation.HeaderIsCut | src/layers/yamux_multistream.rs:293-301 | a dialer's limit below the header gets it no protocol, in any chunking, even where the listener accepts |
| Negotiation.ShortNamesAgree | src/layers/yamux_multistream.rs:116-203 | with every proposal and answer within the limits, header included, and no "na" refused, they agree in any chunking |
| Multistream.YamuxMultistream.OpenStream | src/layers/yamux_multistream.rs:116-146 | header and first proposal are sent and the stream awaits its answer |
| Multistream.YamuxMultistream.SendData | src/layers/yamux_multistream.rs:150-158 | data is sent behind its length only on an open stream, so never after our close |
| Multistream.YamuxMultistream.SendMultistreamData | src/layers/yamux_multistream.rs:458-471 | length, then data |
| Multistream.YamuxMultistream.AcceptProtocol | src/layers/yamux_multistream.rs:162-185 | echoes the proposal and opens the stream, or names the error |
| Multistream.YamuxMultistream.RejectProtocol | src/layers/yamux_multistream.rs:189-203 | answers "na" and awaits another proposal |
| Multistream.YamuxMultistream.Close | src/layers/yamux_multistream.rs:206-212 | our half is closed; the peer may still send |
| Multistream.YamuxMultistream.ResetImmediately | src/layers/yamux_multistream.rs:228-231 | the stream is forgotten and reset |
| Multistream.YamuxMultistream.HandleMessage | src/layers/yamux_multistream.rs:347-451 | the reaction to one message in every negotiation state |
| Multistream.YamuxMultistream.NextFrom | src/layers/yamux_multistream.rs:332-345 | one frame from a stream's buffer, the other buffers untouched |
| Multistream.YamuxMultistream.FeedEntry | src/layers/yamux_multistream.rs:303-304 | the data is appended to the stream's bytes, the other buffers untouched |
| Multistream.YamuxMultistream.TakeData | src/layers/yamux_multistream.rs:285-305 | the size limit counts what is buffered beyond a length already read |
| Multistream.YamuxMultistream.TakeInput | src/layers/yamux_multistream.rs:266-330 | a report of the session below |
| Multistream.YamuxMultistream.Step | src/layers/yamux_multistream.rs:247-345 | one round: the buffer last read from, and only when that is exhausted the session below |
| ConnectionRuns.HandleAccounts | src/connection.rs:535-940 | whatever output comes in, at most one message results, and it says what became of its request or subscription |
| ConnectionRuns.StepConserves | src/connection.rs:321-374 | every step keeps each request in exactly one place and the user's last word on each subscription true |
| ConnectionOwners.HandleKeepsOwned | src/connection.rs:535-940 | handling any output keeps every stream with one owner |
| ConnectionOwners.StepKeepsOwned | src/connection.rs:321-490 | so does every call and every turn of `next` |
| ConnectionSafety.OneOwnerAlways | src/connection.rs:781-918 | in every reachable state a stream belongs to at most one request, incoming request or side of a subscription; ours are odd, theirs even; no inbound side without an outbound one |
| ConnectionSafety.EveryConnectionIsSafe | src/connection.rs:498-965 | all of this in every state reachable from a new connection, over every interleaving of calls, timeouts, data, closes, rejections and failures |
| ConnectionSafety.ExactlyOnePlace | src/connection.rs:321-374 | an issued request is in flight, or its cancellation is queued, or one response was returned: exactly one of them |
| ConnectionSafety.OneResponseEach | src/connection.rs:148-149 | in every run, no two messages returned answer the same request |
| ConnectionSafety.EndedBetweenOpenings | src/connection.rs:668-905 | in every run, between two "opened" returned for one subscription an end was returned, in order or in error |
| ConnectionSafety.OpenedOncePerRise | src/connection.rs:699-707 | "opened" is said exactly as often as both sides come to be open |
| ConnectionSafety.StrandedForever | src/connection.rs:358-374 | a request whose stream was dropped silently stays in flight until cancelled or timed out |
| ConnectionSafety.ValueFollowsOpenedExactly | src/connection.rs:871-878 | a value handed over is for a subscription the user was last told is open if and only if our side is open |
| ConnectionHalfOpen.ValueBeforeOpened | src/connection.rs:796-878 | a run from any new connection with one subscription open to the peer: it opens a stream, proposes, shakes hands and sends, and the value is the first thing the user hears |
| ConnectionSafety.ClosedFollowsOpenedExactly | src/connection.rs:457-490 | cancelling says "closed" to a user last told open if and only if both sides are open |
| ConnectionSafety.ClosedWithoutOpened | src/connection.rs:457-490 | on a new connection it is said of a subscription that never was |
| ConnectionStack.EveryStackIsSafe | src/connection.rs:498-533 | with the session underneath, connection and session stay in step and the connection safe, and only even streams are reported opened |
| ConnectionStack.AnsweredOnlyIfHeard | src/connection.rs:516-634 | in any state a request can be answered only if the layer has its stream and is reading from it, or a report of it waits, or the session can still make one |
| ConnectionStack.AnswerableExactlyWhileHeard | src/connection.rs:314-320 | at rest, without a timeout or cancellation, a request can be answered if and only if the layer has its stream and the session can still report it |
| ConnectionStack.MuteForever | src/layers/yamux.rs:481-496 | a request cut off below stays unanswered in every run that leaves it alone |
| ConnectionStack.PingCutsOff | src/layers/yamux.rs:614-648 | a PING or GO AWAY naming the stream cuts it off without a word |
| ConnectionSafety.PeerCanStrand | src/layers/yamux_multistream.rs:395-410 | a first frame that is not the multistream header gets there |
| ConnectionAnswers.AnsweredExactly | src/connection.rs:539-634 | in every run a request is in flight while the log of its stream gives no answer, and the response to it is for its protocol and is what that log gives: the first message after the acceptance, rejected, closed by the peer, too large, out of turn, timed out or cancelled; and it is there if and only if the log gives it |
| ConnectionNews.ToldExactly | src/connection.rs:635-939 | in every run, what a turn returns on an output is what the output tells of, given all that was heard of its stream: the bytes of a peer's request or why there is none, a value, "opened", or which end of a subscription |
| ConnectionNews.OtherwiseTold | src/connection.rs:498-533 | a turn that hears no output returns what was kept back first, or a timeout, or nothing |
| ConnectionNews.EndsExactly | src/connection.rs:498-533 | when a turn ends the connection |
| ConnectionReplies.ResponseGoesOut | src/connection.rs:376-381 | a response and then the close go out on the stream it answers, and nothing anywhere else |
| ConnectionReplies.SubscriptionProposed | src/connection.rs:781-817 | a proposal of a subscription's name is taken exactly if the peer may open it or we have, with its limit and our side beside it, and the stream reset if not |
| ConnectionReplies.RequestProposed | src/connection.rs:906-932 | a proposal of another name is taken for the first request protocol of that name that the peer may ask for, and refused if there is none |
| ConnectionReplies.ProposalsAreAwaited | src/layers/yamux_multistream.rs:368-394 | every proposal reported awaits its answer on a stream nobody has, so the two above apply |
| ConnectionReplies.OpenedRight | src/connection.rs:321-416 | a request and our side of a subscription begin with header and name on a new stream with the configured limit |
| ConnectionReplies.SilencedRight | src/connection.rs:468-490 | both streams of a subscription that ends are reset and gone |
| ConnectionReplies.OutOfTurn | src/connection.rs:635-667 | an output nobody can make anything of resets its stream |
| ConnectionWire.HandleQuiet | src/connection.rs:535-940 | the connection speaks on a stream of its own only when the output was for that stream's owner |
| ConnectionWire.OwnOutput | src/connection.rs:546-606 | on a request's own stream the payload goes out exactly on acceptance, and a value is handed over only after it |
| ConnectionWire.OutboundWired | src/connection.rs:678-718 | our handshake goes out on acceptance, and our side opens only on the answer to it |
| ConnectionWire.StepKeepsWired | src/connection.rs:321-965 | every step keeps what was said on each stream of ours in that order |
| ConnectionWire.RequestGoesOutOnce | src/connection.rs:546-593 | in every run: negotiation, then after acceptance the payload as given and FIN, once, and nothing after; a value is returned only for a request that went out whole |
| ConnectionWire.OpenMeansHandshakesSent | src/connection.rs:679-707 | in every run: a subscription the user was last told is open has our handshake on both its streams, on ours directly after the negotiation |
| Connection.Connection.Request | src/connection.rs:314-356 | keeps all of the above; the identifier is new, in flight, not answered, and recorded with its protocol, that one's name and the payload; it fails only for an unknown protocol |
| Connection.Connection.CancelRequest | src/connection.rs:358-374 | keeps all of the above; the request is out of flight, and one cancellation is on its way if it was in flight |
| Connection.Connection.Respond | src/connection.rs:376-381 | keeps all of the above; on an open stream that takes data the response and the close are the next words |
| Connection.Connection.Subscribe | src/connection.rs:383-416 | keeps all of the above; a subscription the user was told is open cannot be opened again |
| ConnectionFacts.ErrorsExactly | src/connection.rs:390-453 | why a subscription cannot be opened and why nothing can be sent on it |
| Connection.Connection.SendNotification | src/connection.rs:418-453 | keeps all of the above; what is sent comes last on our stream, after our handshake; told open, it fails only in the stream below |
| Connection.Connection.CancelSubscription | src/connection.rs:455-464 | keeps all of the above; the user's last word on it is an end |
| Connection.Connection.Next | src/connection.rs:492-533 | keeps all of the above; a response is for a request made and not answered before, a value for one that went out whole, and "opened" is news and true |
| Connection.Connection.MakeRequest | src/connection.rs:321-356 | a new stream, a new identifier and an entry in flight, or the error |
| Connection.Connection.DropRequest | src/connection.rs:361-374 | out of flight, reset, and a cancellation queued |
| Connection.Connection.SendResponse | src/connection.rs:378-381 | best effort: sent if it can be, and closed |
| Connection.Connection.BeginSubscription | src/connection.rs:390-416 | our side opens, or the error |
| Connection.Connection.Notify | src/connection.rs:427-453 | sent only once our side is open, or the error |
| Connection.Connection.Silence | src/connection.rs:468-490 | both sides reset and closed |
| Connection.Connection.DropSubscription | src/connection.rs:457-464 | the same, and "closed" queued |
| Connection.Connection.HandleRequest | src/connection.rs:539-634 | an output on the stream of a request of ours |
| Connection.Connection.StartRequest | src/connection.rs:547-555 | the payload goes out and our half closes; on failure the payload is gone and the request still in flight |
| Connection.Connection.HandleIncoming | src/connection.rs:635-667 | an output on the stream of a request of the peer's |
| Connection.Connection.HandleOutbound | src/connection.rs:668-780 | an output on our stream of a subscription |
| Connection.Connection.HandleProposal | src/connection.rs:796-817 | a proposal is taken as inbound side only if allowed, and ours is opened beside it |
| Connection.Connection.ShakeInbound | src/connection.rs:820-833 | our handshake goes back before their side counts as open |
| Connection.Connection.HandleInbound | src/connection.rs:818-904 | an output on the peer's stream of a subscription |
| Connection.Connection.HandleStranger | src/connection.rs:906-939 | an incoming request begins, or the stream is turned away |
| Connection.Connection.HandleOutput | src/connection.rs:535-940 | each output goes to the owner of its stream |
| Connection.Connection.HandleRequestTimeouts | src/connection.rs:945-965 | the first expired request still in flight is aborted and reported |
| Connection.Connection.Turn | src/connection.rs:498-533 | kept-back messages first, then timeouts, then the layer below; the message returned is the one recorded |
| Noise.WritesCarryPlaintext | src/layers/noise.rs:193-234 | the wire of any writes carries their concatenation, every message fits its 16-bit length, and what has arrived carries a prefix |
| Noise.MessagesOfFramed | src/layers/noise.rs:396-422 | framed messages come back as they were |
| Noise.FramedLayout | src/layers/noise.rs:396-406 | two bytes of length, the high one first, then the data |
| Noise.NoiseWriteStream.SendFrame | src/layers/noise.rs:396-406 | two length bytes, high first, then the data |
| Noise.NoiseWriteStream.WriteAll | src/layers/noise.rs:217-233 | chunk by chunk, one counter value each |
| Noise.NoiseReadStream.Refill | src/layers/noise.rs:167-187 | one more frame decrypted, what can be read unchanged, or nothing can be read |
| Noise.NoiseReadStream.ReadExact | src/layers/noise.rs:152-190 | succeeds if and only if that many bytes can be had, and hands back the next of them |
| Noise.Transfer | src/layers/noise.rs:151-234 | for any writes and any reads within their total, the reads are consecutive slices of the concatenated writes |
| Protobuf.TagSplits | src/utils/protobuf.rs:54-58 | a tag gives back its wire type, and its field number if and only if that is below 2^61 |
| Protobuf.TagIs | src/utils/protobuf.rs:54-58 | the tag of each kind of value, as a number |
| Protobuf.Encoder.Put | src/utils/protobuf.rs:22-50 | a field's bytes are appended to what was written |
| Protobuf.Encoder.VarintValue | src/utils/protobuf.rs:59-63 | a varint is appended and the cursor moves past it |
| Protobuf.Decode | src/utils/protobuf.rs:67-129 | on any input the decoder ends, having visited the fields that parse before the first error |
| Protobuf.DecodeField | src/utils/protobuf.rs:71-127 | one field, a skipped group tag, or the error |
| Protobuf.FieldExactly | src/utils/protobuf.rs:71-127 | what each wire type leads to, with the error where the input ends or the type is unknown |
| Protobuf.RoundTrip | src/utils/protobuf.rs:21-129 | encoded fields are visited in order, to the last byte and without error, unchanged if and only if all numbers are below 2^61 |
| NoiseHandshake.ToProtobuf | src/layers/noise.rs:264-281 | the nested message of key and signature |
| NoiseHandshake.Sizes | src/layers/noise.rs:266-273 | the key message fits its 128-byte buffer: 36 bytes, and 104 in all |
| NoiseHandshake.FromProtobuf | src/layers/noise.rs:283-378 | total; accepts if and only if both messages parse, the type is 1 and the last key and the last signature have 32 and 64 bytes, and then returns those |
| NoiseHandshake.AcceptedExactly | src/layers/noise.rs:283-378 | the same, over the decoded fields alone |
| NoiseHandshake.OuterFails | src/layers/noise.rs:295-338 | which failure of the outer message gives which error |
| NoiseHandshake.KeyFails | src/layers/noise.rs:340-378 | which failure of the key message gives which error |
| NoiseHandshake.FailsExactly | src/layers/noise.rs:283-293 | the outer message's failure comes first |
| NoiseHandshake.VisitFields | src/layers/noise.rs:302-358 | the last value of each field counts |
| NoiseHandshake.PayloadRoundTrip | src/layers/noise.rs:263-378 | reading inverts writing for every key and signature |
| EndToEnd.SendsAreAsked | src/layers/yamux.rs:250-280 | over every run, whatever lies between the sends, the bytes a stream was asked to carry are those of the accepted sends, in turn |
| EndToEnd.SentIsFramed | src/layers/yamux_multistream.rs:458-469 | so when the accepted sends are each message's length and then its data, what is left of earlier messages and what is asked for are the framed messages |
| EndToEnd.MessagesOfPrefix | src/layers/yamux_multistream/frame_buffer.rs:54-94 | a prefix of framed messages holds a prefix of them |
| YamuxRuns.OwnSilentOnOdd | src/layers/yamux.rs:848-856 | the session itself puts nothing on the wire about a stream of ours, in any run |
| EndToEnd.WireCarriesBytes | src/layers/yamux.rs:671-825 | over a run without overtaking, the bytes on the wire for a stream and then those still queued are those it was asked to carry |
| EndToEnd.SenderTalksPlainly | src/layers/yamux.rs:708-796 | and its frames are plain until its last payload |
| EndToEnd.SessionReports | src/layers/yamux.rs:427-556 | so the receiving session's news of the stream are that payload |
| EndToEnd.MessagesArrive | src/layers/yamux_multistream.rs:247-451 | messages sent on a stream over any run of calls, drains and window updates, among others' traffic, sealed in any pieces, arrived up to any point, taken in by the peer's session among whatever else it does and reported in any chunks that fit, are handed over as a prefix of the same list, behind what was left of earlier ones, and the whole list once nothing is underway |
| Ancestry.Sweep | warp-sync/src/grandpa.rs:261-273 | a sweep adds only descendants and stops only at a closed set |
| Ancestry.BuildAncestrySet | warp-sync/src/grandpa.rs:248-276 | terminates on any headers, and returns exactly the hashes reachable from the target along parent links |
| Grandpa.VerifyJustification | warp-sync/src/grandpa.rs:112-199 | accepts exactly as the counting specification, whose valid targets are those that supplied headers lead to from parent to child |
| Grandpa.LinksFollowHeaders | warp-sync/src/grandpa.rs:248-276 | a hash is found from the target along the links if and only if headers lead to it, each naming the one before it as its parent |
| Grandpa.CollectWeights | warp-sync/src/grandpa.rs:123-129 | the last entry of a key counts in the map, every entry in the total, in 64 bits |
| Grandpa.CheckPrecommit | warp-sync/src/grandpa.rs:161-179 | a vote counts if it targets a descendant and verifies |
| Grandpa.CountOne | warp-sync/src/grandpa.rs:136-190 | one precommit: unknown or seen, marked seen, checked, counted, enough |
| Grandpa.CountPrecommits | warp-sync/src/grandpa.rs:131-198 | the loop with its early exit gives the counting specification's verdict |
| Grandpa.EarlyExitIsFullCount | warp-sync/src/grandpa.rs:131-198 | the early exit gives the verdict of the full count |
| Grandpa.AcceptedExactly | warp-sync/src/grandpa.rs:123-198 | accepted if and only if the listed authorities whose first precommit verifies and is for the target, or for a block that supplied headers lead to from it, weigh more than two thirds of the total |
| Grandpa.LastEntryCounts | warp-sync/src/grandpa.rs:123-129 | a key counts once, with the weight of its last entry |
| Grandpa.ThresholdExactly | warp-sync/src/grandpa.rs:125-129 | the 64-bit threshold is two thirds if and only if twice the total fits |
| Grandpa.WrappedThresholdAcceptsAlmostNothing | warp-sync/src/grandpa.rs:125-129 | a list for which one unit of weight in 2^63 is enough |
| Grandpa.QuorumIntersection | warp-sync/src/grandpa.rs:112-199 | two accepted justifications share supporters of more than a third of the weight, duplicate keys or not |
| Grandpa.FindAuthorityChange | warp-sync/src/grandpa.rs:205-220 | the first announced authority set of a digest |
| Grandpa.ChangeIsFirst | warp-sync/src/grandpa.rs:205-220 | it is what the first GRANDPA consensus item that decodes announces, and none if and only if there is none |
| Grandpa.GrandpaState.ProcessFragment | warp-sync/src/grandpa.rs:47-110 | the checks in order; a rejected fragment changes nothing |
| Grandpa.GrandpaState.Update | warp-sync/src/grandpa.rs:29-45 | accepted or failed, the state is the fold over the accepted prefix, and on failure the next fragment is the one rejected, for the reason reported |
| Grandpa.PrefixOutcome | warp-sync/src/grandpa.rs:29-110 | number, hash and state root of the last header, set id and set in force after any accepted prefix, and no change after none |
| Grandpa.AcceptedPrefixExactly | warp-sync/src/grandpa.rs:29-110 | a prefix is accepted if and only if each fragment is higher than the one before it, its justification is for its own hash and number and accepted by the set announced last, and it announces a set or is the last of a finished response |
| Grandpa.RejectedBecause | warp-sync/src/grandpa.rs:55-98 | which failure is reported, in the order of the checks |
| Grandpa.EachFragmentJustified | warp-sync/src/grandpa.rs:47-110 | each accepted fragment was verified by the set announced before it and finalizes a strictly higher block |
| Grandpa.SetIdRise | warp-sync/src/grandpa.rs:29-110 | the set id rises by n for an unfinished response of n fragments, by n or n - 1 for a finished one |

## Left out

- Futures, wakers, `Rc<RefCell>`, the read/write join and yielding after much work: reads, writes and calls are atomic steps that interleave freely.
- Cryptography and hashing (Noise handshake patterns, ed25519, blake2): abstract functions; of the cipher only that unsealing inverts sealing at the same counter and that a tag adds 16 bytes. Exhaustion of the cipher's counter is not modelled.
- SCALE, JSON and hex decoding, and the command-line program: warp sync starts from decoded fragments and an uninterpreted header hash.
- `src/utils/timers.rs`: expiry is an event that hands back identifiers.
- `src/layers/multistream.rs`, peer identifiers, configuration and error formatting: thin, and would add only easy members.
- Reading a varint from an asynchronous stream (`src/utils/varint.rs:72-88`): the same decoder, one byte at a time.
- `close_stream_immediately` of the multistream layer: not called anywhere in the repository.
- Word size: `usize` is taken as 64 bits. Overflow of u64 sums wraps, as in a release build.
- Running out of stream identifiers: the source panics, so room for one more is a precondition of opening a stream.
- Bytes of a header or payload that arrive in parts: a frame is read as a whole, so the frames given to the reader have as many payload bytes as their header says.
- Undecodable Yamux headers as a session error: `Header.EncodeDecode` says which headers those are; the session reads decoded frames.
- Stored text is bytes; whether a protocol name is UTF-8 is an abstract predicate.
- GRANDPA set id: a natural number, without its 64-bit wrap-around.
- Multistream.YamuxMultistream.OpenStream: takes the identifier the session gave out as a parameter, so with no protocols it does not show that a session stream was opened for nothing.
- YamuxSession.Session.Next: does not model a read that fails in the transport below.
- Noise.NoiseReadStream.ReadExact: does not say which of the buffered bytes are gone after an error, after which the source closes the connection.
- Negotiation.NegotiationAgrees: traffic of other streams between the exchanges, and a session below that stops taking data or loses the stream, are not part of the conversation.
