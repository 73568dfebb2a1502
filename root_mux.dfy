/** muxer.go: the earlier MPEG-TS muxer shell. It builds the same stream
    table from the routing demuxers; its Read reports only an error, never a
    byte count, and allocates a fresh packet on every call. */
module RootMux {
  import opened Base
  import opened AvErrors
  import opened Rtp
  import RootDemux
  import PkgMux

  /** The engine's answers during construction: whether a context is
      allocated, what av_guess_format("mpegts") returns, the code the i-th
      avformat_new_stream reports (negative when the stream cannot be made),
      and the errno text cgo reports beside a failed allocation. */
  datatype MuxEngine = MuxEngine(
    contextAllocated: bool,
    mpegts: Option<PkgMux.OutputFormat>,
    streamCode: nat -> int32,
    errno: string)

  /** The same table as PkgMux.StreamTableOf, stated over the routing
      demuxer class of this version instead of the package's demuxer. */
  ghost predicate StreamTableOf(table: seq<PkgMux.OutputStream>, demuxers: seq<RootDemux.RtpDemuxer>)
  {
    && |table| == |demuxers|
    && forall i :: 0 <= i < |table| ==>
         && |demuxers[i].streams| >= 1
         && table[i].index as int == i && table[i].id as int == i
         && table[i].codecpar == demuxers[i].streams[0].codecpar
  }

  class MpegtsMuxer {
    const oformat: PkgMux.OutputFormat
    const streams: seq<PkgMux.OutputStream>

    constructor (oformat: PkgMux.OutputFormat, streams: seq<PkgMux.OutputStream>)
      ensures this.oformat == oformat && this.streams == streams
    {
      this.oformat := oformat;
      this.streams := streams;
    }

    /** Read: allocate a packet, read the engine's next one into it and copy
        it whole to the front of buf; the result carries no byte count. */
    method Read(buf: array<byte>, packetAllocated: bool, next: PkgMux.MuxFrame) returns (c: Call<Option<GoError>>)
      modifies buf
      ensures !packetAllocated ==> c == Returns(Some(Message("failed to allocate packet"))) && buf[..] == old(buf[..])
      ensures packetAllocated && next.MuxFailed? ==>
        c == Returns(Some(AvErr("av_read_frame", next.code))) && buf[..] == old(buf[..])
      ensures packetAllocated && next.MuxPacket? && |next.data| > buf.Length ==>
        c == Returns(Some(Message("buffer too small"))) && buf[..] == old(buf[..])
      ensures packetAllocated && next.MuxPacket? && |next.data| <= buf.Length && buf.Length == 0 ==>
        c.Panics? && buf[..] == old(buf[..])
      ensures packetAllocated && next.MuxPacket? && 0 < buf.Length && |next.data| <= buf.Length ==>
        c == Returns(None) && buf[..] == Overwrite(old(buf[..]), next.data)
    {
      if !packetAllocated {
        return Returns(Some(Message("failed to allocate packet")));
      }
      match next
      case MuxFailed(code) =>
        return Returns(Some(AvErr("av_read_frame", code)));
      case MuxPacket(data) =>
        if |data| > buf.Length {
          return Returns(Some(Message("buffer too small")));
        }
        if buf.Length == 0 {
          return Panics("index out of range [0] with length 0");
        }
        Memcpy(buf, data);
        return Returns(None);
    }
  }

  /** NewMPEGTSMuxer: output stream i has index i, id i and demuxer i's
      first stream's codec parameters; the first stream that cannot be made
      fails the whole construction with av_err of its code. */
  method NewMpegtsMuxer(demuxers: seq<RootDemux.RtpDemuxer>, engine: MuxEngine) returns (m: MpegtsMuxer?, err: Option<GoError>)
    requires forall i :: 0 <= i < |demuxers| ==> |demuxers[i].streams| >= 1
    requires |demuxers| < 0x8000_0000
    ensures (m == null) <==> err.Some?
    ensures !engine.contextAllocated ==> m == null && err == Some(Message("failed to create format context: " + engine.errno))
    ensures engine.contextAllocated && engine.mpegts.None? ==> m == null && err == Some(Message("failed to guess format"))
    ensures engine.contextAllocated && engine.mpegts.Some? ==>
      (m == null <==> exists i :: 0 <= i < |demuxers| && engine.streamCode(i) < 0)
    ensures m == null && engine.contextAllocated && engine.mpegts.Some? ==>
      exists i :: 0 <= i < |demuxers| && engine.streamCode(i) < 0
        && (forall j :: 0 <= j < i ==> engine.streamCode(j) >= 0)
        && err == Some(AvErr("avformat_new_stream", engine.streamCode(i)))
    ensures m != null ==>
      && fresh(m)
      && m.oformat == PkgMux.Configured(engine.mpegts.value)
      && StreamTableOf(m.streams, demuxers)
  {
    if !engine.contextAllocated {
      return null, Some(Message("failed to create format context: " + engine.errno));
    }
    if engine.mpegts.None? {
      return null, Some(Message("failed to guess format"));
    }
    var oformat := PkgMux.Configured(engine.mpegts.value);
    var table: seq<PkgMux.OutputStream> := [];
    var i := 0;
    while i < |demuxers|
      invariant 0 <= i <= |demuxers| && |table| == i
      invariant forall j :: 0 <= j < i ==> engine.streamCode(j) >= 0
      invariant StreamTableOf(table, demuxers[..i])
    {
      var code := engine.streamCode(i);
      if code < 0 {
        return null, Some(AvErr("avformat_new_stream", code));
      }
      var demuxer := demuxers[i];
      table := table + [PkgMux.OutputStream(i as int32, i as int32, demuxer.streams[0].codecpar)];
      i := i + 1;
    }
    assert demuxers[..i] == demuxers;
    m := new MpegtsMuxer(oformat, table);
    return m, None;
  }
}
