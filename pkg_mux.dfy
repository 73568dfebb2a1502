/** pkg/whiptompegts/mux.go: the MPEG-TS muxer shell. Its constructor makes
    one output stream per demuxer; Read hands out one engine packet at a
    time through the caller's buffer. */
module PkgMux {
  import opened Base
  import opened AvErrors
  import opened Libav
  import opened Rtp
  import PkgDemux

  /** Codec ids the output format can default to. */
  datatype CodecId = MPEG2VIDEO | MP2 | OtherCodec(id: nat)

  /** The AVOutputFormat fields the constructor sets. */
  datatype OutputFormat = OutputFormat(name: string, videoCodec: CodecId, audioCodec: CodecId, flags: bv32)

  /** AVFMT_NOFILE: the muxer does no file I/O of its own. */
  const AVFMT_NOFILE: bv32 := 0x0001

  /** An output stream: its index, its id and the codec parameters it took. */
  datatype OutputStream = OutputStream(index: int32, id: int32, codecpar: CodecParameters)

  /** The engine's answers during construction: whether avformat_alloc_context
      returns a context, what av_guess_format("mpegts") returns, whether the
      i-th avformat_new_stream returns a stream, and the text of the errno
      cgo reports beside a failed call. */
  datatype MuxEngine = MuxEngine(
    contextAllocated: bool,
    mpegts: Option<OutputFormat>,
    streamCreated: nat -> bool,
    errno: string)

  /** One answer of av_read_frame on the muxer's context: a packet, or a
      negative code. */
  datatype MuxFrame = MuxPacket(data: seq<byte>) | MuxFailed(code: NegativeCode)

  /** Stream i of the output takes index i, id i and demuxer i's first
      stream's codec parameters. */
  ghost predicate StreamTableOf(table: seq<OutputStream>, demuxers: seq<PkgDemux.RtpDemuxer>)
  {
    && |table| == |demuxers|
    && forall i :: 0 <= i < |table| ==>
         && |demuxers[i].streams| >= 1
         && table[i].index as int == i && table[i].id as int == i
         && table[i].codecpar == demuxers[i].streams[0].codecpar
  }

  /** The format the constructor leaves: mpegts' own, with MPEG-2 video and
      MP2 audio as default codecs and AVFMT_NOFILE added to its flags. */
  function Configured(guessed: OutputFormat): (f: OutputFormat)
    ensures f.name == guessed.name && f.videoCodec == MPEG2VIDEO && f.audioCodec == MP2
    ensures f.flags & AVFMT_NOFILE == AVFMT_NOFILE
    ensures f.flags & !AVFMT_NOFILE == guessed.flags & !AVFMT_NOFILE
  {
    guessed.(videoCodec := MPEG2VIDEO, audioCodec := MP2, flags := guessed.flags | AVFMT_NOFILE)
  }

  class MpegtsMuxer {
    const oformat: OutputFormat
    const streams: seq<OutputStream>
    /** Set once Close has freed the packet and the context. */
    var freed: bool

    constructor (oformat: OutputFormat, streams: seq<OutputStream>)
      ensures this.oformat == oformat && this.streams == streams && !freed
    {
      this.oformat := oformat;
      this.streams := streams;
      freed := false;
    }

    /** Read: the engine's next packet, copied whole to the front of buf.
        A packet that does not fit is refused and buf is left as it was. */
    method Read(buf: array<byte>, next: MuxFrame) returns (c: Call<(int, Option<GoError>)>)
      requires !freed
      modifies buf
      ensures next.MuxFailed? ==>
        c == Returns((0, Some(AvErr("av_read_frame", next.code)))) && buf[..] == old(buf[..])
      ensures next.MuxPacket? && |next.data| > buf.Length ==>
        c == Returns((0, Some(Message("buffer too small")))) && buf[..] == old(buf[..])
      ensures next.MuxPacket? && |next.data| <= buf.Length && buf.Length == 0 ==>
        c.Panics? && buf[..] == old(buf[..])
      ensures next.MuxPacket? && 0 < buf.Length && |next.data| <= buf.Length ==>
        c == Returns((|next.data|, None)) && buf[..] == Overwrite(old(buf[..]), next.data)
    {
      match next
      case MuxFailed(code) =>
        return Returns((0, Some(AvErr("av_read_frame", code))));
      case MuxPacket(data) =>
        if |data| > buf.Length {
          return Returns((0, Some(Message("buffer too small"))));
        }
        if buf.Length == 0 {
          return Panics("index out of range [0] with length 0");
        }
        Memcpy(buf, data);
        return Returns((|data|, None));
    }

    /** Close frees the packet and the context, and reports no error. */
    method Close() returns (err: Option<GoError>)
      requires !freed
      modifies this
      ensures freed && err == None
    {
      freed := true;
      return None;
    }
  }

  /** NewMPEGTSMuxer: a muxer whose output stream i has index i, id i and
      demuxer i's first stream's codec parameters; or, when the context, the
      format or any stream cannot be made, no muxer and an error. */
  method NewMpegtsMuxer(demuxers: seq<PkgDemux.RtpDemuxer>, engine: MuxEngine) returns (m: MpegtsMuxer?, err: Option<GoError>)
    requires forall i :: 0 <= i < |demuxers| ==> |demuxers[i].streams| >= 1
    requires |demuxers| < 0x8000_0000
    ensures (m == null) <==> err.Some?
    ensures !engine.contextAllocated ==> m == null && err == Some(Message("failed to create format context: " + engine.errno))
    ensures engine.contextAllocated && engine.mpegts.None? ==> m == null && err == Some(Message("failed to guess format"))
    ensures engine.contextAllocated && engine.mpegts.Some? ==>
      (m == null <==> exists i :: 0 <= i < |demuxers| && !engine.streamCreated(i))
    ensures m == null && engine.contextAllocated && engine.mpegts.Some? ==>
      err == Some(Message("failed to create stream: " + engine.errno))
    ensures m != null ==>
      && fresh(m) && !m.freed
      && m.oformat == Configured(engine.mpegts.value)
      && StreamTableOf(m.streams, demuxers)
  {
    if !engine.contextAllocated {
      return null, Some(Message("failed to create format context: " + engine.errno));
    }
    if engine.mpegts.None? {
      return null, Some(Message("failed to guess format"));
    }
    var oformat := Configured(engine.mpegts.value);
    var table: seq<OutputStream> := [];
    var i := 0;
    while i < |demuxers|
      invariant 0 <= i <= |demuxers| && |table| == i
      invariant forall j :: 0 <= j < i ==> engine.streamCreated(j)
      invariant StreamTableOf(table, demuxers[..i])
    {
      if !engine.streamCreated(i) {
        return null, Some(Message("failed to create stream: " + engine.errno));
      }
      var demuxer := demuxers[i];
      table := table + [OutputStream(i as int32, i as int32, demuxer.streams[0].codecpar)];
      i := i + 1;
    }
    assert demuxers[..i] == demuxers;
    m := new MpegtsMuxer(oformat, table);
    return m, None;
  }
}
