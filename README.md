# whip-to-mpegts, modelled in Dafny

whip-to-mpegts is a WHIP ingest endpoint. It accepts a WebRTC session over
HTTP, then waits until every negotiated track has arrived. It wraps each
track in a libavformat RTP demuxer, which pulls RTP bytes through a Go read
callback. One MPEG-TS muxer is then built whose output stream i takes the
codec parameters of demuxer i's first stream, and the muxer is handed to a
consumer callback as an `io.Reader`. No code in the repository moves demuxed
packets into the muxer: its `Read` calls `av_read_frame` on the muxer's own
format context.

The repository holds two generations of the demuxer and the muxer:
- the package versions, in `pkg/whiptompegts/`;
- an earlier root version, whose demuxer also routes frames to sinks and
  accepts a raw byte reader.

This project models:
- both read and write callbacks;
- the root demuxer's `Run` routing loop;
- the libav error helpers (`AVERROR`, `AVERROR_EOF`, `av_err`);
- both MPEG-TS muxer shells (constructor, `Read`, `Close`);
- the WHIP `Server`: its session registry, the POST/PATCH/DELETE handler, and
  the background build each POST starts.

Everything outside the Go code is modelled as an answer the caller supplies.
That covers libavformat, pion/webrtc, the network, and net/http's connection:
- an RTP source is a function from the k-th `ReadRTP` call to its answer;
- `av_read_frame` answers are a sequence, and so is the number of read
  callback calls each of them makes through the demuxer's avio context;
- a sink's write replies are a function of the write's number;
- engine and pion set-up steps are datatypes of outcomes.

Go panics are a `Call` result, `Panics(reason)`. C integer widths are
newtypes (`int32`, `uint16`, `byte`), and a failing libav code is a
`NegativeCode`, so a failed `av_read_frame` answer always carries a code
below zero. 16-bit sequence-number wrap-around is
written out, and so is the wrap of `AVERROR` on `INT32_MIN`.

Modules:
- `Base`: shared types.
- `AvErrors`: `error.go`.
- `Rtp`: the read callback's outcome as values, shared by both demuxers.
- `Libav`: engine value types.
- `PkgDemux`: `pkg/whiptompegts/demux.go`.
- `RootDemux`: `demuxer.go`.
- `PkgMux`: `pkg/whiptompegts/mux.go`.
- `RootMux`: `muxer.go`.
- `Whip`: `pkg/whiptompegts/whiptompegts.go`.

### Behaviour of the code worth knowing

The model follows the code in each case:
- A successful POST answers 200, where the WHIP standard, RFC 9725,
  specifies 201 Created. The handler never calls `WriteHeader` on success,
  so the first `Write` commits 200.
- When only writing the answer fails, the handler's `WriteHeader(500)`
  comes after `Write` has committed 200, so the status stays 200. The
  session is not registered.
- The track barrier has no timeout. A build whose tracks never all arrive
  stays blocked (`AwaitingTrack`), and its session stays registered.
- A failed build (demuxer or muxer) ends its goroutine only. The peer
  connection stays open and registered in `pcs`.
- The muxers do no timestamp rescaling, take no lock, and write no header or
  trailer. `Read` hands out whatever `av_read_frame` returns on the muxer's
  context.
- PATCH with a content type other than `application/sdp` panics, and does so
  before looking up the session.
- A request whose path is empty (a CONNECT request in authority form, when
  the handler is mounted directly rather than behind a `ServeMux`) panics
  on the slice that drops the leading "/", whatever its method.

## Model

| member | source | states |
|---|---|---|
| `AvErrors.AvError` | pkg/whiptompegts/error.go:19-21 | AVERROR is 32-bit negation: the sum with its argument is 0, except that INT32_MIN maps to itself; a positive errno gives a negative code |
| `AvErrors.AvErrorInvolution` | pkg/whiptompegts/error.go:19-21 | AVERROR undoes itself on every C int |
| `AvErrors.EofIsDistinct` | pkg/whiptompegts/error.go:15-17 | AVERROR_EOF is the negated tag of 'E','O','F',' ', and no AVERROR of an errno below 541478725 (so none of EIO, EINVAL, ENOMEM) equals it |
| `AvErrors.AvErr` | pkg/whiptompegts/error.go:23-31 | av_err gives io.EOF exactly when the code is AVERROR_EOF, whatever the prefix; otherwise an error carrying the prefix and the code |
| `AvErrors.FirstNul` | pkg/whiptompegts/error.go:30 | bytes.Index(b, {0}): the index of a zero byte with no zero byte before it |
| `AvErrors.StrerrorMessage` | pkg/whiptompegts/error.go:27-30 | the message part is the buffer up to its first zero byte, byte for byte, and holds no NUL |
| `AvErrors.NatDecimalRoundTrip` | pkg/whiptompegts/error.go:30 | the decimal digits `%d` prints for a natural number parse back to that number |
| `AvErrors.DecimalRoundTrip` | pkg/whiptompegts/error.go:30 | `%d` of any integer, sign included, parses back to it |
| `AvErrors.AvErrText` | pkg/whiptompegts/error.go:27-30 | the fmt.Errorf text is at least the prefix, ": ", the message and " (d)" long, and ends with ')'; AvErrTextCode and AvErrTextMessage state what is read back from it |
| `AvErrors.AvErrTextCode` | pkg/whiptompegts/error.go:27-30 | the code av_err was given is read back from the trailing "(code)" of its text, whatever av_strerror wrote |
| `AvErrors.AvErrTextMessage` | pkg/whiptompegts/error.go:27-30 | the text starts with "prefix: " followed by the av_strerror message |
| `Rtp.ReadResult` | pkg/whiptompegts/demux.go:107-128 | the callback's code: AVERROR_EOF iff the source hit io.EOF, AVERROR(EIO) iff another source error, AVERROR(EINVAL) iff marshaling failed, AVERROR(ENOMEM) iff the packet is larger than bufsize, otherwise the packet's byte length, which is at most bufsize |
| `Rtp.Copied` | pkg/whiptompegts/demux.go:122-128 | the bytes copied are the whole marshaled packet exactly when the code is non-negative, and nothing otherwise |
| `Rtp.SeqAfter` | pkg/whiptompegts/demux.go:115-120 | the remembered sequence number becomes the packet's as soon as it marshals, even when it then does not fit; otherwise it is unchanged |
| `Rtp.ReadResultIsUnambiguous` | pkg/whiptompegts/demux.go:107-128 | libavformat can tell every outcome apart from the code alone, and on data learns the exact count of bytes copied |
| `Rtp.SeqAfterReadsUnmarshaled` | pkg/whiptompegts/demux.go:115-120 | reads none of whose packets marshal leave the remembered sequence number as it was (nil before any read) |
| `Rtp.SeqAfterReadsIsLastMarshaled` | pkg/whiptompegts/demux.go:115-120 | after a number of reads the remembered sequence number is that of the last packet among them that marshaled |
| `Rtp.Overwrite` | pkg/whiptompegts/demux.go:126 | a buffer after memcpy: same length, the copied bytes in front, the rest as before |
| `Rtp.Memcpy` | pkg/whiptompegts/demux.go:126 | the array after the copy is Overwrite of its old contents |
| `Rtp.NextSeq` | demuxer.go:118 | `*rtpseq+1` in uint16: the successor, with 65535 followed by 0 |
| `Rtp.LostPackets` | demuxer.go:118 | the gap test never fires before a number is remembered; after one it fires exactly when the new number is not the old one plus 1, or, after 65535, not 0 |
| `Rtp.GapWarnings` | demuxer.go:118-121 | the zap "lost packets" log over the numbers seen: fewer warnings than packets, each one a pair the gap test fires on |
| `Rtp.ConsecutiveHasNoGaps` | demuxer.go:118-121 | an unbroken run of sequence numbers, wrapping through 65535 to 0, logs no "lost packets" warning |
| `Rtp.GapWarningsAreJumps` | demuxer.go:118-121 | each warning names two adjacent packets whose numbers are not consecutive; there are fewer warnings than packets |
| `PkgDemux.RtpDemuxer.ReadBuffer` | pkg/whiptompegts/demux.go:105-129 | one ReadRTP call per invocation; returns ReadResult, leaves cbuf as Overwrite with Copied, and leaves rtpseq as SeqAfter; keeps rtpseq equal to the number all reads so far leave |
| `PkgDemux.RtpDemuxer.WriteRtcpPacket` | pkg/whiptompegts/demux.go:132-135 | every RTCP write is accepted in full: the result is bufsize |
| `PkgDemux.NewRtpDemuxer` | pkg/whiptompegts/demux.go:39-102 | all or nothing: a failed set-up step gives its error and no demuxer; a successful one gives a fresh demuxer over the given source, with the probed streams, having made the reads stream probing (demux.go:82-89) made through the callback, and remembering the number those reads leave |
| `RootDemux.RawResult` | demuxer.go:131-140 | the raw path's code: AVERROR_EOF iff io.EOF, AVERROR(EIO) iff another error, else the count of bytes read |
| `RootDemux.RawCopied` | demuxer.go:131-140 | the raw path copies all bytes read when there is no error, and nothing when there is one |
| `RootDemux.RtpDemuxer.ReadBuffer` | demuxer.go:102-141 | with an RTP source it behaves as the package callback does (code, buffer, rtpseq) and records the packet's number; without one it reads once from the raw reader; the sink table is never touched; the numbers seen stay those of all reads made so far (SeenUpTo), with one warning per gap among them |
| `RootDemux.RtpDemuxer.ReadRtp` | demuxer.go:104-130 | the RTP path: ReadResult, Overwrite with Copied, SeqAfter, and the warning log kept equal to GapWarnings of the numbers seen |
| `RootDemux.RtpDemuxer.Remember` | demuxer.go:118-121 | a "lost packets" warning (prev, seq) is logged exactly when a number is remembered and seq is not its uint16 successor; then seq is remembered |
| `RootDemux.GapWarningsStep` | demuxer.go:118-121 | the warning log over the numbers seen grows by exactly the warning the gap test raises for the newest number |
| `RootDemux.RtpDemuxer.ReadRaw` | demuxer.go:131-140 | the raw path: RawResult, and Overwrite with RawCopied |
| `RootDemux.RtpDemuxer.WriteRtcpPacket` | demuxer.go:144-147 | every RTCP write is accepted in full |
| `RootDemux.RouteOne` | demuxer.go:159-166 | a frame is dropped iff its stream's sink is nil; otherwise it goes to that sink, renumbered to the sink's index, with the stream's time base, and its data and timestamps are untouched |
| `RootDemux.RouteAll` | demuxer.go:154-168 | routing a run of frames gives at most one push per frame, each one remapped |
| `RootDemux.RunFromPushes` | demuxer.go:154-168 | the pushes of the loop from any read on are those already made followed by the routed frames it reads, in read order |
| `RootDemux.RunFromStops` | demuxer.go:154-168 | the loop stops at the first failed read (returning av_err of its code) or the first failed sink write (returning that error); every earlier read succeeded, every write before the last succeeded, and when the stop is a failed read every write succeeded |
| `RootDemux.RunDeliversInOrder` | demuxer.go:149-169 | when the tables match, Run pushes exactly the routed frames it read, in order and remapped; it stops at the first failed read or write and returns that failure, never nil; a run that ends on a failed read had every write succeed |
| `RootDemux.RouteFrame` | demuxer.go:156-167 | one turn of the loop: a failed read stops with av_err of its code, a failed write to the frame's sink stops with the sink's error, and otherwise the run goes on exactly as the recursive specification continues from the next read |
| `RootDemux.RtpDemuxer.Pull` | demuxer.go:156 | the read callback calls one av_read_frame makes: n more reads consumed, and the numbers seen and the warning log kept equal to those of all reads so far |
| `RootDemux.RtpDemuxer.Run` | demuxer.go:149-169 | the loop's result (error, pushes made, frames read) equals the recursive specification, which returns the mismatch error before reading when sink and stream counts differ; the av_read_frame calls it makes consume exactly the callback reads they pull, moving rtpseq and logging the gap warnings of the packets read; the sink table is never touched |
| `PkgMux.Configured` | pkg/whiptompegts/mux.go:29-37 | the guessed mpegts format with MPEG-2 video and MP2 audio codecs and AVFMT_NOFILE set, its other flag bits unchanged |
| `PkgMux.NewMpegtsMuxer` | pkg/whiptompegts/mux.go:21-58 | no muxer iff an error: the context, the format or any stream cannot be made; otherwise output stream i has index i, id i and the codec parameters of demuxer i's first stream |
| `PkgMux.MpegtsMuxer.Read` | pkg/whiptompegts/mux.go:60-74 | a failed read gives (0, av_err); a packet larger than buf gives (0, "buffer too small") with buf untouched; an empty buf with an empty packet panics; otherwise (size, nil) with the packet in front of buf |
| `PkgMux.MpegtsMuxer.Close` | pkg/whiptompegts/mux.go:76-80 | frees the muxer and reports no error |
| `RootMux.NewMpegtsMuxer` | muxer.go:19-54 | as the package constructor, except that the first stream whose code is negative gives av_err("avformat_new_stream", code), with every earlier stream made |
| `RootMux.MpegtsMuxer.Read` | muxer.go:56-77 | a failed packet allocation, a failed read (av_err) and an oversized packet each give an error with buf untouched; an empty buf panics; otherwise nil with the packet in front of buf |
| `Whip.ReadRtp` | pkg/whiptompegts/whiptompegts.go:176-179 | TrackReader.ReadRTP passes the track's packet and error through and drops its attributes |
| `Whip.TrackReader` | pkg/whiptompegts/whiptompegts.go:111 | the RTP source a `&TrackReader{tr}` gives the demuxer: its k-th read is the track's k-th packet and error |
| `Whip.SessionId` | pkg/whiptompegts/whiptompegts.go:28 | the session id is the request path without its first character |
| `Whip.Location` | pkg/whiptompegts/whiptompegts.go:96 | `http://%s/%s`: the scheme, the request's host, a '/', then the session id at the end |
| `Whip.LocationAddressesSession` | pkg/whiptompegts/whiptompegts.go:96 | when the host contains no '/', the path of the Location URL a POST returns addresses exactly the new session id |
| `Whip.Server.constructor` | pkg/whiptompegts/whiptompegts.go:20-25 | NewServer starts with an empty registry |
| `Whip.Server.Handler` | pkg/whiptompegts/whiptompegts.go:27-170 | An empty path panics before the method is looked at. GET answers 405 and changes nothing. POST registers a fresh connection and a build under the new id only when every step succeeds. PATCH never changes the registry: it panics on a non-SDP content type, answers 404 for an unknown id, 400 or 500 on failure, and otherwise appends the description. DELETE answers 404 for an unknown id and 500 when close fails, both leaving the registry alone; otherwise it closes the connection and unregisters exactly that id. Other methods answer an empty 200 and change nothing. The registry invariant is kept throughout. |
| `Whip.Server.Post` | pkg/whiptompegts/whiptompegts.go:33-105 | status 400 if the body cannot be read, 500 if negotiation fails, 200 with nothing registered if only the write fails; on success 200 with Content-Type application/sdp, the Location and the local SDP, and the session registered with the answer's media count |
| `Whip.StartDemuxers` | pkg/whiptompegts/whiptompegts.go:108-117 | demuxer i is made over track i with the i-th set-up answer; the loop stops with no error when trackCount demuxers exist or no further track has arrived, and with the set-up's error at the first that fails |
| `Whip.Server.RunBuild` | pkg/whiptompegts/whiptompegts.go:106-128 | the muxer is built only after exactly trackCount tracks arrived, with demuxer i reading track i; while tracks are missing nothing changes; a failed demuxer or muxer ends the build and leaves the connection registered and open; on success the session is handed to the callback once, then its connection is closed and unregistered |
| `Whip.DeleteTwice` | pkg/whiptompegts/whiptompegts.go:155-168 | two DELETEs of one id never panic; after a successful first one the second answers 404 |

## Left out

- Concurrency is not modelled. Handler calls and build goroutines are separate atomic steps. The unsynchronised access of the request handlers and the build goroutines to the `pcs` map (a data race in the source) is not represented.
- ICE, SDP parsing and the rest of pion/webrtc are outside the model. Their outcomes are the `Negotiation` fields, the PATCH and DELETE flags, and the track list.
- The zap logger is a ghost warning log, and `log.Printf` is left out.
- The body of NewRTPDemuxer is collapsed into one set-up answer. That covers the temporary SDP file, the option dictionary, avformat_open_input, avio_alloc_context and stream probing, which all depend on libavformat and the file system.
- The root `NewRTPDemuxer` (demuxer.go:36-99) is not modelled separately. Its steps match the package version, and it never sets `Sinks`.
- The av_strerror message text comes from libavutil: it is an arbitrary zero-terminated buffer.
- Whip.Server.RunBuild: the build never calls `Close` on the muxer it made. The model likewise leaves it open.
- Whip.Server.Post: the peer connection a failed POST created is neither closed nor registered; the model does not track it once the call returns.
- Whip.Server.Handler: requires a POST's uuid to be unused.
- Whip.Server.Handler: requires fewer than 2^31 media descriptions, so every build's demuxer count fits the C int the muxer uses.
- Whip.Server.Handler: DELETE with a failing `Close` is modelled as leaving the connection as it was; how much pion tears down before the error is unknown.
- Whip.Server.RunBuild: the order in which tracks arrive is a parameter, and so are the demuxer set-up answers for the i-th arrival. Tracks beyond the media count are never read.
- RootDemux.RtpDemuxer.Run: requires the `av_read_frame` answers to end with a failure. A run on which the engine never fails does not terminate in the source either.
- RootDemux.RtpDemuxer.Run: how many read callback calls each `av_read_frame` makes is a parameter, and the bytes those calls copy into libavformat's 1500-byte buffer are not followed into the frames it returns; the frames are an independent parameter.
- RootDemux.RtpDemuxer.Run: on the raw path, requires every later answer of the raw reader to keep the io.Reader contract for the 1500-byte avio buffer (demuxer.go:79).
- RootDemux.RtpDemuxer.Run: requires every frame's stream index to lie within the stream table, as libavformat guarantees.
- RootDemux.RtpDemuxer.ReadBuffer: on the raw path, requires bufsize > 0. With bufsize 0 the source panics on `&buf[0]`; libavformat never passes 0.
- RootDemux.RtpDemuxer.ReadBuffer: requires the raw reader to return no more bytes than asked, as the io.Reader contract promises.
- RootDemux.RawResult: requires the raw reader to return no more bytes than asked, as the io.Reader contract promises.
- RootDemux.RtpDemuxer.ReadRaw: requires bufsize > 0 and a reader that keeps the io.Reader contract, for the same reasons.
- AvErrors.AvErrText: requires the buffer to hold a zero byte, which av_strerror always writes.
- Rtp.ReadResult: marshaled packets are at least the 12-byte RTP header and at most one UDP datagram. `&b[0]` therefore never panics.
- RootMux.NewMpegtsMuxer: muxer.go:39-42 does not compile as written. The two-value cgo call makes `err` the errno `error`, which is then compared with `< 0` and passed to `av_err` as a C int; `avformat_new_stream` returns no code, and a NULL stream is never tested. Line 48 does not compile either: it indexes `demuxer.avformatctx.streams`, a `**C.AVStream`, directly. The model takes the evident intent: each `avformat_new_stream` call reports a code, a negative code fails the construction through av_err, and line 48 reads the codec parameters of the demuxer's first stream.
- PkgDemux.NewRtpDemuxer: the bytes stream probing copies into libavformat's buffer are not modelled; only the number of reads probing makes and the sequence number they leave are.
- PkgMux.NewMpegtsMuxer: requires each demuxer to have at least one stream, as probing guarantees. The source's slice of a demuxer's stream array by the muxer's `nb_streams` is unchecked C memory and is modelled as taking stream 0.
- PkgMux.NewMpegtsMuxer: requires fewer than 2^31 demuxers, so the `C.int(i)` conversion never truncates.
- RootMux.NewMpegtsMuxer: the same two requirements as PkgMux.NewMpegtsMuxer, for the same reasons.
- PkgMux.NewMpegtsMuxer: the packet `av_packet_alloc` returns (mux.go:56) is stored without a NULL check. The model assumes the allocation succeeds; a NULL packet that `Read` would then hand to `av_read_frame` (mux.go:62) is not modelled, because what libavformat does with it is outside the Go code.
- PkgMux.MpegtsMuxer.Close: requires a muxer not yet closed. A second call is a double free in C.
- PkgMux.MpegtsMuxer.Read: requires a muxer not yet closed.
- The `init` log-level call and the `examples/server.go` program are not part of the model.
