# Model of the transport core

A Dafny model, with proofs, of the stateful core of a tunnelling proxy: the parts of
`protocol/core/transport` whose correctness depends on the order of events, on bit arithmetic or on
several functions fitting together. Source cells name the repository's files from its root.

| file | what it models |
|---|---|
| `Bits.dfy` | machine words as numbers, with the bit operations defined on them |
| `Streams.dfy` | byte streams that arrive in arbitrary segments, and a connection whose writes may fail |
| `Bloom.dfy`, `Replay.dfy` | the packed Bloom filter; the two-generation replay filter and its interleaved calls |
| `Frames.dfy`, `FrameWriter.dfy` | frames on the wire; the batching writer with timer, token channel and background flusher |
| `FrameReader.dfy`, `PoolSharing.dfy` | the reader over pooled buffers; many session loops sharing one pool |
| `Address.dfy` | the address header of section 5 of RFC 1928: one encoder and its four parsers |
| `UdpAssoc.dfy`, `ServerAssoc.dfy` | the association tables of client and server, with their concurrent steps |
| `Varint.dfy`, `Redstone.dfy`, `WebRtc.dfy` | 32-bit varints (section 7.6 of DWARF 5), the Minecraft-shaped tunnel and its sibling over a data channel |
| `RateLimit.dfy` | the fixed-window limiter of authentication attempts |
| `Health.dfy`, `Ranking.dfy`, `Transports.dfy`, `Selector.dfy` | the server selector: health records, scores, the stable sorts, candidates, weighted choice |

Objects that the program updates are classes here, and their methods are proved against functions on
values. Where several goroutines share state, each section under a lock is one step of a state
machine built from those same functions; a run is any sequence of enabled steps, and the main results
hold for all runs. Clock readings, random draws, the outcome of writes and dials, and the segmentation
of streams are inputs.

Results that differ from what one might expect of the program:

- Two fixed windows of 1000 admit at most 1999, not 2000, attempts in a closed minute (`RateLimit.SlidingWindow`).
- A closed batching writer may keep a batch for ever, exactly when it has one and its flusher does not hold a token
  (`FrameWriter.DrainsExactly`).
- Data that the replay filter rejects because of the previous generation alone is forgotten with it (`Replay.RejectionDoesNotRefresh`).
- The close of an association that outlives 65535 later opens removes a stranger's handler if there is one under its id
  (`UdpAssoc.CloseIsOwn`).
- A channel that is still registered when its id is issued again, 65535 openings later, is never closed
  (`UdpAssoc.RegisteredIsLost`).
- A stored entry that names one of the newer transports loses that name when the selector takes it over
  (`Transports.TakeoverKeepsCandidates`).
- Parsing a handshake panics exactly when its host length is below -2 (`Redstone.PanicsExactly`); a handshake that
  the client writes has one only for a host of 2 GiB or more (`Redstone.LongHostPanics`), far beyond the packet limit.

`dafny verify dfyconfig.toml` checks the whole project.

## Model

| member | source | states |
|---|---|---|
| `Streams.Reader.ReadInto` | protocol/core/transport/framing.go:422-443 | A full read delivers exactly the next `n` bytes of the stream however it is segmented, or fails having consumed what there was, and touches nothing of the array behind them |
| `Bloom.FnvContinues` | protocol/core/transport/replay.go:57-65 | The hash is written in pieces and read in between: the second sum is the hash of the data followed by one more byte |
| `Bloom.SecondSum` | protocol/core/transport/replay.go:57-65 | The second sum is the first sum of the data followed by the byte 1 |
| `Bloom.OneByteSeparates` | protocol/core/transport/replay.go:57-65 | Data that differ in one byte, wherever it is, have different sums |
| `Bloom.FnvKeepsApart` | protocol/core/transport/replay.go:57-65 | Hashing further bytes keeps different running values apart: multiplying by the odd prime loses nothing |
| `Bloom.ProbeIsWalk` | protocol/core/transport/replay.go:32-41 | The probes are the stations of a walk from the first sum in steps of the second, with 64-bit wrap-around, reduced to the bitset |
| `Bloom.SetWord` | protocol/core/transport/replay.go:32-41 | Setting a bit with shift and or changes exactly that bit of the 64-bit word |
| `Bloom.TestWord` | protocol/core/transport/replay.go:43-55 | The mask-and-compare test reads exactly the addressed bit |
| `Bloom.BloomFilter.constructor` | protocol/core/transport/replay.go:21-30 | A new filter holds no item and no marked bit |
| `Bloom.BloomFilter.Add` | protocol/core/transport/replay.go:32-41 | After any sequence of additions a bit of the packed array is set exactly when it is a double-hashing position (64-bit wrap-around, then mod m) of an added item; all word indices are in bounds |
| `Bloom.BloomFilter.Contains` | protocol/core/transport/replay.go:43-55 | Answers exactly whether every position of the data is a position of some added item |
| `Bloom.CoversMember` | protocol/core/transport/replay.go:43-55 | No false negatives: every added item is found |
| `Bloom.CoversGrows` | protocol/core/transport/replay.go:32-55 | Additions never make the filter forget |
| `Bloom.CoversNothing` | protocol/core/transport/replay.go:43-55 | A fresh filter finds something exactly when it uses no probes at all (k = 0) |
| `Replay.ReplayFilter.constructor` | protocol/core/transport/replay.go:76-85 | The filter starts with an empty current generation and no previous one |
| `Replay.ReplayFilter.Lookup` | protocol/core/transport/replay.go:87-98 | The membership test of either locked section looks through both generations |
| `Replay.ReplayFilter.RecheckAndAdd` | protocol/core/transport/replay.go:99-110 | The write-locked section answers from the state it finds and records the data in the current generation exactly when it was in neither |
| `Replay.ReplayFilter.CheckAndAdd` | protocol/core/transport/replay.go:87-110 | A call that nothing interrupts is the atomic check-and-record operation |
| `Replay.ReplayFilter.Rotate` | protocol/core/transport/replay.go:126-131 | The current generation becomes the previous one and an empty one takes its place |
| `Replay.Linearizable` | protocol/core/transport/replay.go:87-131 | Over every interleaving of the two locked sections of any number of calls with rotations, the answers and the filter are those of atomic calls taken one after the other, each at an instant while its call was running |
| `Replay.RealTimeOrder` | protocol/core/transport/replay.go:87-131 | That sequential order respects real time: a call that returned before another started comes first |
| `Replay.NoReplayWithinTwoRotations` | protocol/core/transport/replay.go:87-131 | Two calls with equal data that are both accepted have at least two rotations between their instants, so of concurrent calls with the same data at most one is accepted |
| `Replay.RejectedExactly` | protocol/core/transport/replay.go:87-131 | Over every interleaving a call is rejected if and only if its data are covered by the data accepted since the last rotation before its instant, or by those accepted between the last two |
| `Replay.LogDescribes` | protocol/core/transport/replay.go:87-131 | The two generations hold exactly the data accepted since the last rotation and between the last two |
| `Replay.TwoRotationsForget` | protocol/core/transport/replay.go:126-131 | The guarantee is tight: two rotations with no check between them forget everything |
| `Replay.RejectionDoesNotRefresh` | protocol/core/transport/replay.go:87-110 | A rejection changes nothing, and whatever the filter held before a call, one rotation after it the data is forgotten if and only if the call rejected it because of the previous generation alone |
| `Frames.ParsedExactly` | protocol/core/transport/framing.go:445-463 | The reader yields a frame and a rest exactly from that frame's encoding followed by that rest |
| `Frames.FrameLayout` | protocol/core/transport/framing.go:289-356 | A frame is its length in two bytes, the high one first, and its body |
| `Frames.ReaderInverse` | protocol/core/transport/framing.go:445-463 | On the encodings of any sequence of frames followed by any tail, repeated reads return exactly those frames, in order, and then what the tail holds |
| `Frames.WireIsNeverBlank` | protocol/core/transport/framing.go:445-481 | On any part of a writer's bytes no read, from the first to the last, takes the zero-length branch |
| `Frames.EncodeAllInjective` | protocol/core/transport/framing.go:289-356 | Different frame sequences never look the same on the wire |
| `Frames.PrefixIsRead` | protocol/core/transport/framing.go:422-481 | Every prefix of a wire full of frames is read as a prefix of the frames |
| `FrameWriter.FrameWriter.constructor` | protocol/core/transport/framing.go:268-278 | A batching writer starts with an empty batch, no timer, no token and a waiting flusher |
| `FrameWriter.FrameWriter.Direct` | protocol/core/transport/framing.go:280-287 | A direct writer has its own frame buffer and no flusher |
| `FrameWriter.FrameWriter.FlushLocked` | protocol/core/transport/framing.go:380-388 | Writes the batch in one write and empties it, also when the write fails |
| `FrameWriter.FrameWriter.Append` | protocol/core/transport/framing.go:306-318 | A frame that would overflow the batch makes room first; if that write fails the frame is not taken; the buffer never grows beyond 128 KiB |
| `FrameWriter.FrameWriter.WriteTypedFrame` | protocol/core/transport/framing.go:289-325 | Both modes of a typed write with every branch: impossible sizes are dropped silently, a half-full batch is flushed, otherwise the timer is armed; an error is returned if and only if one of the writes it made to the connection failed, and without one nothing is lost |
| `FrameWriter.FrameWriter.WriteFrame` | protocol/core/transport/framing.go:327-356 | The same for a raw frame, which never flushes at half full |
| `FrameWriter.FrameWriter.WriteDirect` | protocol/core/transport/framing.go:289-304 | A direct write puts the encoding of the frame on the wire at once, with an error exactly when the connection fails |
| `FrameWriter.FrameWriter.ScheduleFlush` | protocol/core/transport/framing.go:358-369 | Creates or resets the timer |
| `FrameWriter.FrameWriter.Flush` | protocol/core/transport/framing.go:371-378 | An explicit flush leaves no batch and reports exactly the failure of its write |
| `FrameWriter.FrameWriter.OnTimer` | protocol/core/transport/framing.go:358-366 | The timer function leaves at most one token |
| `FrameWriter.FrameWriter.AutoFlush` | protocol/core/transport/framing.go:390-399 | One turn of the background flusher is taking the token and then flushing, two steps that others may come between |
| `FrameWriter.FrameWriter.Close` | protocol/core/transport/framing.go:401-411 | Closing marks the writer, stops the timer and flushes, and reports exactly the failure of that flush |
| `FrameWriter.RunConserves` | protocol/core/transport/framing.go:289-411 | In every state of every interleaving, with any write failures, sink and batch together hold the accepted frames in lock order short of the bytes counted as lost |
| `FrameWriter.WriterRefines` | protocol/core/transport/framing.go:289-411 | In every reachable state wire followed by batch equals the encodings of the accepted frames if and only if no failed write has lost bytes; the batch never exceeds its buffer |
| `FrameWriter.ReliableAcceptsAll` | protocol/core/transport/framing.go:289-356 | While the sink does not fail, exactly the frames of possible size are accepted, in order, and nothing is lost |
| `FrameWriter.BatchingIsInvisible` | protocol/core/transport/framing.go:268-388 | Any interleaving that ends with an empty batch leaves on the wire what direct mode leaves for the accepted frames, if and only if no failed write has lost bytes; over a connection that does not fail, those are all frames of possible size |
| `FrameWriter.SmallFrameWaits` | protocol/core/transport/framing.go:306-324 | A frame that fits into the batch, and a typed one into its first half, is not written but waits there with the timer armed |
| `FrameWriter.HalfFullIsWritten` | protocol/core/transport/framing.go:319-321 | A typed frame that makes the batch half full is written at once with the batch, in one write |
| `FrameWriter.OverflowMakesRoom` | protocol/core/transport/framing.go:340-355 | A frame that overflows the batch has the batch written first, and is taken exactly if that write succeeds |
| `FrameWriter.ImpossibleSizeIsDropped` | protocol/core/transport/framing.go:327-330 | A body that is empty or too long changes nothing |
| `FrameWriter.NoStrandedBytes` | protocol/core/transport/framing.go:289-399 | Until closing, in every reachable state a non-empty batch has an armed timer, a timer callback to run, a token, or a flusher holding one |
| `FrameWriter.InternalRun` | protocol/core/transport/framing.go:358-399 | Timer, callback and flusher steps alone use up a budget, so they come to an end whatever their order |
| `FrameWriter.BatchDrains` | protocol/core/transport/framing.go:358-399 | When no such step is left the batch has reached the wire, with no caller doing anything |
| `FrameWriter.DrainsExactly` | protocol/core/transport/framing.go:358-411 | From a reachable state every order of timer, callback and flusher steps that comes to rest leaves an empty batch if and only if the writer is open, or its flusher already holds a token, or the batch is empty |
| `FrameWriter.UnaidedEnds` | protocol/core/transport/framing.go:358-411 | Such runs always come to rest, also with the flusher of a closed writer ending |
| `FrameWriter.GoneNeverDrains` | protocol/core/transport/framing.go:390-399 | Once the flusher has gone, no timer, callback or flusher step ever writes the batch |
| `FrameWriter.StrandedAfterClose` | protocol/core/transport/framing.go:327-356 | An instance of the other case: a writer whose flusher went after closing still accepts a frame, which stays in the batch |
| `FrameReader.ReaderFollowsWriter` | protocol/core/transport/framing.go:289-481 | End to end, over any connection: while no failed write has lost bytes, what a reader can have obtained at any moment is a prefix of the accepted frames, and all of them when the batch is empty; over a connection that does not fail, those are all frames of possible size |
| `FrameReader.BufferPool.Get` | protocol/core/transport/framing.go:218-227 | A buffer taken from the pool is lent to nobody else |
| `FrameReader.BufferPool.Put` | protocol/core/transport/framing.go:229-231 | A buffer is returned only while it is lent, hence never twice |
| `FrameReader.PooledFrame.Release` | protocol/core/transport/framing.go:238-253 | Release returns the buffer once; a second call does nothing |
| `FrameReader.PooledFrame.CopyTail` | protocol/core/transport/udp_assoc.go:128-143 | The copy for a consumer is fresh memory with the value of the end of the payload |
| `FrameReader.FrameReader.ReadTypedFramePooled` | protocol/core/transport/framing.go:465-481 | For every segmentation: the frame is the next one of the stream, it alone borrows one new buffer, and on a short read or an empty frame the buffer has gone back |
| `FrameReader.CopyDatagram` | protocol/core/transport/udp_assoc.go:128-134 | A datagram is decoded in the buffer and its data copied out of it; one that cannot be decoded is dropped |
| `FrameReader.Dispatch` | protocol/core/transport/udp_assoc.go:128-143 | The client's switch on the frame type passes on exactly what the frame is for, in memory of its own, and drops what cannot be decoded |
| `FrameReader.ServerDispatch` | protocol/core/transport/server.go:393-420 | The server's switch copies connects and datagrams into memory of their own, decodes closings in place and ignores the rest |
| `FrameReader.DatagramIsHandled` | protocol/core/transport/udp_assoc.go:128-134 | A datagram reaches association, source and data exactly when the frame is their encoding |
| `FrameReader.ClosingIsHandled` | protocol/core/transport/udp_assoc.go:135-139 | A closing is taken for an id exactly when the frame is that id |
| `FrameReader.PlainIsKept` | protocol/core/transport/udp_assoc.go:140-143 | The client keeps a frame of any other type for its consumers, with its type and whole payload |
| `FrameReader.AllPlainAreKept` | protocol/core/transport/udp_assoc.go:122-146 | From a stream of such frames it keeps every one, in order |
| `FrameReader.ServerPassesOn` | protocol/core/transport/server.go:399-417 | The server passes on connects and datagrams whole, and nothing of the types that are neither these nor closings |
| `FrameReader.AllRequestsArePassedOn` | protocol/core/transport/server.go:393-420 | From a stream it passes on exactly its connects and datagrams, in order |
| `FrameReader.NextFrame` | protocol/core/transport/udp_assoc.go:122-146 | One turn of the frame loop of either side passes on the effect of the next frame in memory that is neither in the pool nor lent out, and leaves no buffer borrowed |
| `FrameReader.FrameLoop` | protocol/core/transport/server.go:393-420 | A whole loop, of the server or the client, passes on exactly the effects of the frames of its stream, in order, for a client one event with type and payload for each plain frame; every value survives the later reuse of the buffers |
| `PoolSharing.SharingIsInvisible` | protocol/core/transport/framing.go:218-253 | With any number of client and server loops interleaved on the one pool, every buffer is in the pool once or with one loop, and what each loop passes on is a prefix of what its own stream calls for, and all of it at the end |
| `PoolSharing.StepIntact` | protocol/core/transport/framing.go:218-253 | No step of one loop, of a client or a server, changes the frame another loop is reading |
| `PoolSharing.RunOwned` | protocol/core/transport/framing.go:422-481 | Ownership and contents hold in every reachable state, including after short reads |
| `Address.ReadAddressHeader` | protocol/core/transport/relay.go:85-91 | The stream parser yields what the slice parser yields on the same bytes and stops at the same place |
| `Address.ReadAddressHeaderWithFirstByte` | protocol/core/transport/relay.go:93-126 | The same when the type byte has been read before |
| `Address.ReadDirectTarget` | protocol/core/transport/server.go:622-658 | The server's own stream parser accepts the same inputs with the same result, and answers an unknown type with status 1 |
| `Address.DecodeExactly` | protocol/core/transport/framing.go:62-129 | Decoding yields an address and a rest exactly from that well-formed address's encoding followed by that rest |
| `Address.DecodeEncoded` | protocol/core/transport/framing.go:62-129 | The round trip for every address: well-formed ones come back, others as the zero address or a domain cut to 255 bytes, unknown types not at all |
| `Address.Layout` | protocol/core/transport/framing.go:62-89 | The bytes of the address header in section 5 of RFC 1928: type, address, for a domain after its length, and the port with the high byte first |
| `Address.MalformedLayout` | protocol/core/transport/framing.go:62-89 | What is not an address of its type is written as zeros, and a longer domain as its first 255 bytes |
| `Address.FrameLayout` | protocol/core/transport/framing.go:131-184 | Connect and datagram frames put their number, high byte first, before the header |
| `Address.ConnectParsersAgree` | protocol/core/transport/server.go:423-460 | The inline connect parser and the library one agree on all payloads in spite of their different guards and offsets |
| `Address.ConnectRoundTrip` | protocol/core/transport/framing.go:131-153 | The server connects to the stream and the address the client encoded |
| `Address.UdpExactly` | protocol/core/transport/framing.go:178-203 | A UDP payload decodes to an association, address and data exactly when it is their encoding |
| `Varint.Append` | protocol/core/transport/redstone.go:34-47 | The encoding loop appends the LEB128 digits of the truncated 32-bit value |
| `Varint.Decode` | protocol/core/transport/redstone.go:66-78 | The slice decoder computes the 32-bit signed value and length, or fails, for every byte string |
| `Varint.ReadFrom` | protocol/core/transport/redstone.go:49-64 | The stream decoder agrees with it on every stream: same value and bytes consumed, or both fail, having consumed at most five bytes |
| `Varint.OrShifted` | protocol/core/transport/redstone.go:49-78 | Or-ing a shifted digit into the 32-bit word is addition modulo 2^32, exact in the first four bytes |
| `Varint.RoundTrip` | protocol/core/transport/redstone.go:34-78 | Every 32-bit value followed by any bytes is read back, consuming exactly its encoding of at most five bytes |
| `Varint.Shortest` | protocol/core/transport/redstone.go:34-78 | No byte string decodes to a value with fewer bytes than the encoder writes |
| `Varint.CanonicalExactly` | protocol/core/transport/redstone.go:34-78 | A decoded string is the encoder's own exactly when it is not zero-padded and has no bits above the 32nd |
| `Varint.EncodeLength` | protocol/core/transport/redstone.go:34-47 | The encoding takes at most n bytes exactly for numbers of at most 7n bits |
| `Varint.EncodingIsLeb128` | protocol/core/transport/redstone.go:34-47 | The format: the high bit is set in every byte but the last, and the low seven bits are the digits, least significant first |
| `Redstone.MakePacket` | protocol/core/transport/redstone.go:85-95 | Writes length, id and data as one packet |
| `Redstone.ReadPacket` | protocol/core/transport/redstone.go:97-114 | Reads one packet from any segmentation, with the length and id checks, and leaves the rest of the stream |
| `Redstone.PacketRoundTrip` | protocol/core/transport/redstone.go:85-114 | A packet comes back with everything behind it untouched if and only if its body is at most 2 MiB |
| `Redstone.Conn.Read` | protocol/core/transport/redstone.go:137-148 | Delivers the next unread bytes of the packets, whatever their ids, passing over packets without data; a non-empty read never returns nothing without an error, and an error means the stream has ended or is malformed, with nothing left to deliver |
| `Redstone.Conn.Write` | protocol/core/transport/redstone.go:150-164 | Sends the packets of the data; on failure exactly the reported chunks are on the wire, and at most part of the next packet |
| `Redstone.PacketsAreDelivered` | protocol/core/transport/redstone.go:137-164 | What one write puts on the wire is exactly what reads deliver, before whatever follows |
| `Redstone.WritesAreDelivered` | protocol/core/transport/redstone.go:137-164 | The same for whole conversations of any number of completed writes |
| `Redstone.PacketsOfChunks` | protocol/core/transport/redstone.go:150-164 | A write goes out in packets with the id 0x17 of 16 KiB each, but for the last, which has what is left |
| `Redstone.ReceivedIsPrefix` | protocol/core/transport/redstone.go:137-164 | At any moment, wherever the wire is cut, the peer has received a prefix of the bytes written |
| `Redstone.PayloadsOfPart` | protocol/core/transport/redstone.go:97-148 | From a part of any stream, well formed or not, reads deliver a prefix of what they deliver from the whole |
| `Redstone.InterruptedIsPrefix` | protocol/core/transport/redstone.go:150-164 | After completed writes and a failed one the peer receives a prefix of the bytes written: at least the total reported, at most one chunk more |
| `Redstone.WholePacketsCarryOn` | protocol/core/transport/redstone.go:137-164 | When a failed write stopped between two packets, later writes are delivered after what it carried |
| `Redstone.PanicsExactly` | protocol/core/transport/redstone.go:193-216 | For every protocol version, host length and following bytes, parsing the handshake runs into the slice panic if and only if the host length is below -2 |
| `Redstone.PanicsExactlyOn` | protocol/core/transport/redstone.go:193-216 | The same for arbitrary data: a panic if and only if a version and a host length below -2 can be decoded |
| `Redstone.ServerPanics` | protocol/core/transport/redstone.go:254-288 | In a packet within the limit such a length, and no other, ends serving with the panic, whatever follows the packet |
| `Redstone.PanicWitness` | protocol/core/transport/redstone.go:193-216 | The host length -3 in a packet of a few bytes is an input at which it happens |
| `Redstone.HandshakeIsUnderstood` | protocol/core/transport/redstone.go:166-216 | Every handshake the client writes for a host of less than 2 GiB yields its next state, whatever version, host and port |
| `Redstone.LongHostPanics` | protocol/core/transport/redstone.go:166-216 | For hosts of any length: the handshake runs into the panic if and only if the length, taken modulo 2^32, lies from 2^31 to 2^32 - 3 |
| `Redstone.Serve` | protocol/core/transport/redstone.go:254-288 | Serving enters the tunnel exactly when the bytes admit the client and the login answer is written, on the same buffered reader, with exactly the bytes behind the login unread |
| `Redstone.Login` | protocol/core/transport/redstone.go:271-288 | The login consumes one packet and answers it before the tunnel starts |
| `Redstone.Handover` | protocol/core/transport/redstone.go:254-288 | For every segmentation of handshake, login and tunnel packets the server recovers the next state, enters the tunnel exactly for 2, and the tunnel reads exactly the bytes written into it |
| `Redstone.FirstPacketIsHandshake` | protocol/core/transport/redstone.go:254-261 | A first packet with another id than 0 is refused |
| `Redstone.HandshakeAloneIsRefused` | protocol/core/transport/redstone.go:271-277 | Without a login packet nobody enters the tunnel |
| `Redstone.HandshakeLayout` | protocol/core/transport/redstone.go:166-175 | A handshake holds version, length of the host, host, port with the high byte first, and next state |
| `Redstone.ClientHandover` | protocol/core/transport/redstone.go:290-358 | On the client's side the login answer has id 2 and holds id and name, and the bytes behind it reach the tunnel unharmed |
| `WebRtc.Conn.Receive` | protocol/core/transport/webrtc.go:73-84 | The scratch array is refilled only when no unread byte lies in it |
| `WebRtc.Conn.Read` | protocol/core/transport/webrtc.go:73-84 | Delivers the next unread bytes in order; a non-empty read never returns nothing without an error, and an error means nothing is left |
| `WebRtc.Conn.Write` | protocol/core/transport/webrtc.go:86-100 | Sends the messages of the data; on failure exactly the reported chunks have been sent |
| `WebRtc.MessagesAreWhole` | protocol/core/transport/webrtc.go:86-100 | Chunking loses and reorders nothing, and every chunk fits the receiver's scratch array |
| `WebRtc.WritesAreDelivered` | protocol/core/transport/webrtc.go:73-100 | Over any sequence of completed writes the peer has exactly the bytes written to read |
| `WebRtc.ReportedIsDelivered` | protocol/core/transport/webrtc.go:73-100 | Over any sequence of writes, some refused part of the way, the peer has exactly the bytes reported as written to read |
| `UdpAssoc.Client.OpenUDPAssociation` | protocol/core/transport/udp_assoc.go:42-70 | Issues the next non-zero 16-bit id, registers the channel under it and starts a frame loop exactly when none is active |
| `UdpAssoc.Client.UnregisterUDPAssociation` | protocol/core/transport/udp_assoc.go:90-110 | Removes the handler of an id, hands its channel to the caller to close, and yields the close frame exactly when one is asked for and a writer is there |
| `UdpAssoc.CloseFrameIsUnderstood` | protocol/core/transport/framing.go:205-216 | The close frame is decoded by either side to the id it was made for |
| `UdpAssoc.Client.DropPersistentChannel` | protocol/core/transport/client.go:1059-1085 | Swaps handlers and inbox out together and clears the activity flag; a transport reset does the same |
| `UdpAssoc.Lifecycle` | protocol/core/transport/udp_assoc.go:42-190 | Over every run of opens, closes, remote closes, drops, resets and frame loops: no channel and no inbox is closed twice; registered handlers imply an active frame loop, and that the last one started has not exited; each channel delivers in order only payloads of its own id, at most 64 queued |
| `UdpAssoc.IdsIssued` | protocol/core/transport/udp_assoc.go:44-54 | The k-th id is ((k-1) mod 65535) + 1, never 0, and two opens share an id exactly when their distance is a multiple of 65535 |
| `UdpAssoc.CloseIsOwn` | protocol/core/transport/udp_assoc.go:90-110 | When a handler stands under the id of an association that closes, even of a stale one after a reset, it is its own if and only if at most 65534 associations have been opened after it; otherwise it belongs to one a multiple of 65535 opens later |
| `UdpAssoc.CloseAfterWrap` | protocol/core/transport/udp_assoc.go:44-54 | A run in which the handler is a stranger's: 65535 opens after the first |
| `UdpAssoc.OvertakenIsLost` | protocol/core/transport/udp_assoc.go:44-54 | In every reachable state a channel is registered, about to be closed or closed, exactly one of these, if and only if it was not overtaken: still registered when its id was issued again, 65535 openings later. An overtaken channel is none of them and never will be |
| `UdpAssoc.AllClosed` | protocol/core/transport/client.go:941-981 | When nothing is registered and no close is under way, every channel ever made has been closed exactly once, except that the overtaken ones have not been closed at all |
| `UdpAssoc.RegisteredIsLost` | protocol/core/transport/udp_assoc.go:44-54 | The same from the opening that issues the id again: whatever ran before and runs after, the channel is lost if and only if it is still registered just before |
| `UdpAssoc.FirstIsStillRegistered` | protocol/core/transport/udp_assoc.go:44-54 | After 65535 openings and nothing else the first channel is still registered |
| `UdpAssoc.FirstIsLost` | protocol/core/transport/udp_assoc.go:44-54 | So after one more opening it is never closed, whatever follows |
| `UdpAssoc.StepDelivering` | protocol/core/transport/udp_assoc.go:150-169 | Dispatching keeps order, ownership and the queue bound, also across the recovered panic of a send on a closed channel |
| `UdpAssoc.Delivered` | protocol/core/transport/udp_assoc.go:150-169 | In every run a channel has delivered or still holds exactly the payloads offered to it while it was open and held fewer than 64, in order |
| `UdpAssoc.NothingDropped` | protocol/core/transport/udp_assoc.go:150-169 | A channel that is open and not full whenever something is offered to it loses nothing |
| `UdpAssoc.SendQueues` | protocol/core/transport/udp_assoc.go:155-168 | Sending appends the payload to an open channel that is not full, and changes nothing else |
| `UdpAssoc.ReadIsForwarded` | protocol/core/transport/udp_assoc.go:122-146 | What a loop does next with each kind of frame: a datagram goes to the channel registered under its id, or nowhere |
| `UdpAssoc.RegisteredIsOpen` | protocol/core/transport/udp_assoc.go:42-70 | In every reachable state a registered channel is open and has the id it is registered under |
| `UdpAssoc.DatagramArrives` | protocol/core/transport/udp_assoc.go:122-169 | In every reachable state a datagram read for a registered id and sent on stands at the end of that channel's queue, unless 64 wait there already |
| `UdpAssoc.InboxDelivered` | protocol/core/transport/udp_assoc.go:171-190 | In every run an inbox has handed out or still holds exactly the frames offered to it while it was open and held fewer than 128, in order |
| `UdpAssoc.DropDisconnects` | protocol/core/transport/client.go:1059-1085 | A drop or reset leaves no handler, a new inbox and no reader, and a loop that looks for its reader ends |
| `UdpAssoc.ConnectedLoopReads` | protocol/core/transport/udp_assoc.go:112-122 | A loop that finds a reader reads from it |
| `UdpAssoc.FailedLoopEnds` | protocol/core/transport/udp_assoc.go:122-127 | A loop whose connection has failed drops everything and ends |
| `UdpAssoc.StepAttended` | protocol/core/transport/udp_assoc.go:112-148 | Every step keeps the frame loop alive while anything is registered |
| `ServerAssoc.FoundIsOpen` | protocol/core/transport/server.go:538-548 | What a lookup finds in a reachable table was opened for that id, is open, has been inserted by its creator, and is neither about to be closed nor in the table under any other id |
| `ServerAssoc.LookReuses` | protocol/core/transport/server.go:545-549 | A handler that finds a socket for its id uses it and opens none |
| `ServerAssoc.TableIsInjective` | protocol/core/transport/server.go:538-616 | No socket stands in a reachable table under two ids, so ending the session closes each one once |
| `ServerAssoc.Table.Insert` | protocol/core/transport/server.go:556-569 | When the id has a socket, the table stays and that socket is the one to use; otherwise the new socket is inserted and used |
| `ServerAssoc.InsertKeepsFirst` | protocol/core/transport/server.go:556-569 | The step in which racing handlers insert does the same: the first socket stays, and the loser learns of it |
| `ServerAssoc.Table.Remove` | protocol/core/transport/server.go:599-607 | Closing an id takes its socket, if it has one, out of the table and hands it to the caller |
| `ServerAssoc.Table.RemoveAll` | protocol/core/transport/server.go:609-616 | The end of the session closes every socket of the table once; that reachable tables hold no socket twice is TableIsInjective |
| `ServerAssoc.EverySocketHasOnePlace` | protocol/core/transport/server.go:538-616 | Over every interleaving each socket opened is in exactly one place: held by its creator, in the table, removed, or closed once; the table holds no closed socket; a relay starts at most once and only on an inserted socket |
| `ServerAssoc.ClosedExactly` | protocol/core/transport/server.go:538-616 | In every reachable state a socket has been closed if and only if it is not held by its creator, not in the table and not removed |
| `ServerAssoc.NothingLeaks` | protocol/core/transport/server.go:599-616 | In every reachable state all sockets have been closed if and only if the table is empty, no close is under way and no handler holds a socket |
| `ServerAssoc.SameSocket` | protocol/core/transport/server.go:538-569 | All calls for one id that settle with no close in between return the same socket |
| `RateLimit.AuthManager.constructor` | protocol/core/transport/auth.go:61-71 | A new limiter knows no address |
| `RateLimit.AuthManager.CheckRateLimit` | protocol/core/transport/auth.go:100-112 | One attempt opens a window, or counts in the running one and is admitted up to the limit; no other address is touched |
| `RateLimit.AuthManager.CleanRateLimits` | protocol/core/transport/auth.go:114-123 | Sweeping keeps exactly the entries whose window has not run out, unchanged |
| `RateLimit.AnsweredAlone` | protocol/core/transport/auth.go:100-123 | However attempts of other addresses and sweeps are mixed in, an address is answered as by a limiter of its own that is never swept |
| `RateLimit.SweepingIsInvisible` | protocol/core/transport/auth.go:114-123 | Inserting sweeps anywhere in a run changes no answer |
| `RateLimit.SlidingWindow` | protocol/core/transport/auth.go:100-112 | Over every run with a monotone clock no closed 60-second interval admits an address more than 1999 times |
| `RateLimit.SlidingWindowIsTight` | protocol/core/transport/auth.go:100-112 | A run in which an interval admits 1999 |
| `RateLimit.ModerateIsNeverRefused` | protocol/core/transport/auth.go:100-112 | An address that keeps to 1000 attempts in every closed 60-second interval is never refused |
| `RateLimit.RefusalHasCause` | protocol/core/transport/auth.go:100-112 | A refused attempt is the last of more than 1000 in one closed 60-second interval |
| `RateLimit.RefusalIsEarned` | protocol/core/transport/auth.go:100-112 | The same in every run of the limiter with sweeps and other addresses |
| `Health.CooldownForFailures` | protocol/core/transport/subscription.go:422-435 | The loop computes min(2^n, 60) seconds for n failures, none for n <= 0 |
| `Health.CooldownLadder` | protocol/core/transport/subscription.go:422-435 | The values: 2, 4, 8, 16, 32 seconds, then a minute for ever |
| `Health.CooldownGrows` | protocol/core/transport/subscription.go:422-435 | More failures never cool down shorter |
| `Health.RecordDescribes` | protocol/core/transport/subscription.go:258-294 | Over every history of reports the record of a server counts its own successes and failures, its trailing failures and their last times, and cools down from the last report by the length of the trailing run |
| `Health.AverageIsBounded` | protocol/core/transport/subscription.go:258-276 | Over every history the average lies between the smallest and the largest positive latency of the server's successes, and is 0 exactly when there was none |
| `Health.AverageMoves` | protocol/core/transport/subscription.go:262-276 | A success moves the average a quarter of the way to its latency, rounded down; the first positive latency is taken as it is; anything else moves nothing |
| `Health.FailureCosts` | protocol/core/transport/subscription.go:258-326 | After every history a failure makes its server score at least 700 worse at every later time, exactly 700 just when it is the first report about it and the cooldown is over; with earlier reports and no cooldown left, exactly 800, or 825 when it shrinks a surplus of successes |
| `Health.SuccessHeals` | protocol/core/transport/subscription.go:258-326 | A success no slower than what the server is charged for takes back the whole price of trailing failures and cooldown, and without a latency exactly that plus 25 in a surplus of successes |
| `Health.HealthyBeatsFailed` | protocol/core/transport/subscription.go:258-326 | Whatever the history of other servers, one that only ever failed scores worse at every moment than one of the same weight that was never dialled or only ever answered within 974 ms |
| `Health.WeightHelps` | protocol/core/transport/subscription.go:296-306 | More weight never scores worse, and weight is worth at most 2000 |
| `Health.WeightCosts` | protocol/core/transport/subscription.go:296-306 | The exact share of the weight, and the score of a server never dialled |
| `Health.LatencyCosts` | protocol/core/transport/subscription.go:308-312 | Two records that differ in the average alone differ by its full milliseconds, an unknown average counting 150 |
| `Health.CooldownCosts` | protocol/core/transport/subscription.go:317-319 | A cooldown costs 5000 and a point for each full millisecond left of it, and nothing once it is over |
| `Health.FirstReportCosts` | protocol/core/transport/subscription.go:258-326 | The exact scores after the first report about a server |
| `Health.OthersKeepTheirScore` | protocol/core/transport/subscription.go:258-294 | A report changes the score of no server with another key |
| `Health.TimeHeals` | protocol/core/transport/subscription.go:296-326 | Without news a score never rises, and a minute after the last report no cooldown is left |
| `Transports.NormalizingTwice` | protocol/core/transport/subscription.go:350-371 | Normalising yields a known name and is idempotent |
| `Transports.EverySpelling` | protocol/core/transport/subscription.go:350-371 | Every spelling of a name, in any case and with any spaces around it, is normalised to that name |
| `Transports.OnlySpellings` | protocol/core/transport/subscription.go:350-371 | What is normalised to a name is a spelling of it, or of any for auto |
| `Transports.TakeoverKeepsEntry` | protocol/core/transport/subscription.go:328-335 | Taking an entry over repairs its weight and transport name and changes nothing else |
| `Transports.BuildTransportVariants` | protocol/core/transport/subscription.go:373-412 | The loop with its set of names seen yields the candidates in order of preference |
| `Transports.PreferenceNormalized` | protocol/core/transport/subscription.go:204-209 | Normalising the preference before building candidates makes no difference |
| `Transports.VariantsAreDistinct` | protocol/core/transport/subscription.go:373-420 | Candidates differ from the server only in transport and positive weight; there is one, or two with separate statistics |
| `Transports.NamedTransportFirst` | protocol/core/transport/subscription.go:373-412 | The transport a server names comes first, else the preferred one, else TLS; only TLS and QUIC have a fallback, the other of the two |
| `Transports.KeysSeparate` | protocol/core/transport/subscription.go:414-420 | Two candidates share statistics exactly when they share the address and both or neither use QUIC |
| `Transports.TakeoverKeepsCandidates` | protocol/core/transport/subscription.go:328-348 | Normalising a stored entry leaves its candidates alone under every preference if and only if it does not name reality, mirage, masque, redstone or webrtc |
| `Selector.NormalizeServerEntries` | protocol/core/transport/subscription.go:328-335 | Normalises the caller's array in place |
| `Selector.ServerSelector.constructor` | protocol/core/transport/subscription.go:93-101 | The selector takes the normalised array over and starts without statistics |
| `Selector.ServerSelector.UpdateServers` | protocol/core/transport/subscription.go:173-179 | An update replaces the servers and keeps the statistics |
| `Selector.ServerSelector.SelectServer` | protocol/core/transport/subscription.go:103-126 | The draw selects the server in whose stretch of the cumulative weights it falls; the fall-back at the end is never reached |
| `Selector.WeightIsShare` | protocol/core/transport/subscription.go:103-126 | Exactly `weight` of the possible draws fall to each server, and no draw to two |
| `Selector.ServerSelector.EnsureStats` | protocol/core/transport/subscription.go:286-294 | A record is created only for a key that has none; no record is shared |
| `Selector.ServerHealthStats.Update` | protocol/core/transport/subscription.go:258-284 | The in-place update of one record |
| `Selector.ServerSelector.ReportDialResult` | protocol/core/transport/subscription.go:258-284 | A report updates the record of its own key and no other |
| `Selector.ServerSelector.CandidateScore` | protocol/core/transport/subscription.go:296-326 | Computes the score whose parts LatencyCosts, CooldownCosts, WeightCosts, FailureCosts, SuccessHeals and FirstReportCosts price |
| `Selector.ServerSelector.RankVariants` | protocol/core/transport/subscription.go:207-243 | The candidates of one server are scored and sorted by score, then preference |
| `Selector.ServerSelector.RankServerGroups` | protocol/core/transport/subscription.go:189-256 | The two nested sorts compute the ranking specified |
| `Selector.GroupIsOrdered` | protocol/core/transport/subscription.go:225-238 | Each group's candidates are a permutation of the server's, ordered by score and then by preference |
| `Selector.RankedIsOrdered` | protocol/core/transport/subscription.go:245-255 | The groups are a permutation of the configured servers, ordered by best score, then falling weight, then position |
| `Selector.FirstIsBest` | protocol/core/transport/subscription.go:189-256 | The first candidate of the first group has the least score among all candidates of all servers |
| `Selector.FailedIsNotFirst` | protocol/core/transport/client.go:168-233 | While a candidate in good health is configured, no candidate of the same weight that only ever failed is dialled first |
| `Selector.SlowerIsNotFirst` | protocol/core/transport/subscription.go:189-256 | Of two candidates equal otherwise, the one slower by a full millisecond is not dialled first |
| `Selector.CoolingCandidate` | protocol/core/transport/subscription.go:296-326 | A candidate under a cooldown is charged for it, by the time of the ranking, until it is over |
| `Selector.NewCandidate` | protocol/core/transport/subscription.go:301-306 | A candidate never dialled is charged for its weight and 250 |
| `Selector.HeavierCandidate` | protocol/core/transport/subscription.go:296-301 | Of two candidates with the same statistics the heavier is ahead by its exact share |
| `Selector.FailedDialCosts` | protocol/core/transport/subscription.go:258-326 | After every history a failed dial costs its candidate at least 700 at every later ranking |
| `Ranking.StableOrderSorts` | protocol/core/transport/subscription.go:225-250 | The stable sort yields a permutation in which equal keys keep their positions |
| `Ranking.StableOrderIsUnique` | protocol/core/transport/subscription.go:225-250 | That arrangement is the only one, so any stable sort arrives at it |
| `Selector.ResolveAttemptGroups` | protocol/core/transport/client.go:168-181 | The ranking, or the client's own server when there is nothing to rank |
| `Selector.ResolveServer` | protocol/core/transport/client.go:224-233 | The client dials a candidate that no candidate of any configured server beats |

## Left out

- TLS, QUIC, HTTP/3, WebRTC signalling, certificates, sockets, TUN devices and logging: I/O and libraries that are not visible.
- HMAC, SHA-256, AES-GCM, X25519 and HKDF, and with them the authentication payload and the REALITY handshake.
- Bloom.BloomFilter.constructor: takes m and k as given, with m >= 1 and m + 63 below 2^64; the sizing from a capacity and a rate is floating point, and the capacity of 0 that would make m zero is never used (`server.go` asks for 100000).
- Real timers and the wall clock: the timer fires at any moment while it is armed, and a clock reading never falls behind an earlier one.
- Selector.ServerSelector.CandidateScore: takes one clock reading, where the program reads the clock again for the length of the remaining cooldown.
- Selector.ServerSelector.SelectServer: takes the random draw as an argument, and does not model the wrap-around of a weight sum beyond 63 bits.
- Health.AverageIsBounded: latencies are unbounded, so the wrap-around of three times a latency of more than ninety years is not modelled.
- RateLimit.AuthManager.CheckRateLimit: the count is unbounded; 2^63 attempts in a minute are not modelled.
- Transports.NormalizingTwice: names are trimmed and lowered as ASCII; Unicode spaces and letters are not modelled.
- Textual IP addresses: an address is its 4 or 16 raw bytes, or the bytes of a domain; a text that does not parse is an address of the wrong length.
- Redstone.InterruptedIsPrefix: says nothing of writes attempted after one that failed inside a packet; between packets, `Redstone.WholePacketsCarryOn` does.
- Redstone.Handover: is about handshakes the client writes, within the packet limit of 2 MiB; for all other bytes `Redstone.Serve` says how far they take the server.
- The status page of the Minecraft-shaped server and the frames that carry its description: fixed texts.
- The single-frame loop: after a reset an old loop can still be blocked in a read while a new one starts, so only what `UdpAssoc.Lifecycle` lists is claimed.
- `ReadFrame` with its packets for TUN: the same reader over the same pool. Its test `length > MaxFrameSize` cannot succeed on a 16-bit length.
- FrameWriter.FrameWriter.ScheduleFlush: leaves out the delay of the timer, and that the first call creates the timer which later calls reset.
- FrameWriter.FrameWriter.Close: does not model two closes at the same moment, which could both find the stop channel open.
- The wait of a session for its handlers: there is none, so a handler still opening a socket when its session ends can hold or insert one afterwards (`ServerAssoc.NothingLeaks`).
- The walk down the ranking (`tryConnectCandidates`), the pings of `SelectBestServer` and the updating of a subscription over HTTP: control flow around dials that are not visible.
- The map from keys to users in `auth.go`: it is never read, and replacing a user leaves it behind.
- Subscription links and JSON, padding, firewall, connection peeking, camouflage pages, SOCKS and HTTP front ends: easier, or plumbing.
