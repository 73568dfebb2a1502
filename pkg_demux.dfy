/** pkg/whiptompegts/demux.go: the demuxer of one WebRTC track and the
    callbacks libavformat pulls RTP bytes through. */
module PkgDemux {
  import opened Base
  import opened Libav
  import opened AvErrors
  import opened Rtp

  class RtpDemuxer {
    /** The RTP source: its k-th ReadRTP answer. */
    const rtpin: nat -> RtpRead
    /** The stream table probing found. */
    const streams: seq<StreamInfo>
    /** ReadRTP calls made so far. */
    var consumed: nat
    /** The sequence number of the last packet that marshaled (nil before). */
    var rtpseq: Option<uint16>

    /** The remembered number is the one the reads made so far leave. */
    ghost predicate Valid()
      reads this
    {
      rtpseq == SeqAfterReads(None, rtpin, consumed)
    }

    /** A demuxer whose stream probing has made `probeReads` reads through
        the callback. */
    constructor (rtpin: nat -> RtpRead, streams: seq<StreamInfo>, probeReads: nat)
      ensures Valid()
      ensures this.rtpin == rtpin && this.streams == streams
      ensures consumed == probeReads && rtpseq == SeqAfterReads(None, rtpin, probeReads)
    {
      this.rtpin := rtpin;
      this.streams := streams;
      consumed := probeReads;
      rtpseq := SeqAfterReads(None, rtpin, probeReads);
    }

    /** goReadBufferFunc: pulls one packet and copies all of it, or nothing,
        into the first bufsize bytes of cbuf. */
    method ReadBuffer(cbuf: array<byte>, bufsize: int32) returns (r: int32)
      requires Valid()
      requires 0 <= bufsize as int <= cbuf.Length
      modifies this, cbuf
      ensures Valid()
      ensures consumed == old(consumed) + 1
      ensures r == ReadResult(rtpin(old(consumed)), bufsize)
      ensures cbuf[..] == Overwrite(old(cbuf[..]), Copied(rtpin(old(consumed)), bufsize))
      ensures rtpseq == SeqAfter(old(rtpseq), rtpin(old(consumed)))
    {
      var p := rtpin(consumed);
      consumed := consumed + 1;
      if p.err.Some? {
        if p.err.value != SourceEof {
          return AvError(EIO);
        }
        return AVERROR_EOF;
      }
      if p.packet.marshal.MarshalFailed? {
        return AvError(EINVAL);
      }
      var b := p.packet.marshal.bytes;
      rtpseq := Some(p.packet.sequenceNumber);
      if |b| > bufsize as int {
        return AvError(ENOMEM);
      }
      Memcpy(cbuf, b);
      return |b| as int32;
    }

    /** goWriteRTCPPacketFunc: accepts every write and discards it. */
    method WriteRtcpPacket(buf: seq<byte>, bufsize: int32) returns (r: int32)
      ensures r == bufsize
    {
      return bufsize;
    }
  }

  /** NewRTPDemuxer, all or nothing: a demuxer over the RTP source with the
      stream table probing found, having made the reads probing made, or the
      error of the first step that failed and no demuxer. */
  method NewRtpDemuxer(rtpin: nat -> RtpRead, setup: DemuxSetup) returns (d: RtpDemuxer?, err: Option<GoError>)
    requires WellFormedSetup(setup)
    ensures setup.SetupFailed? ==> d == null && err == Some(setup.err)
    ensures setup.SetupOk? ==> err == None && d != null && fresh(d)
    ensures d != null ==> d.rtpin == rtpin && d.streams == setup.streams && |d.streams| >= 1
    ensures d != null ==>
      && d.Valid() && d.consumed == setup.probeReads
      && d.rtpseq == SeqAfterReads(None, rtpin, setup.probeReads)
  {
    match setup
    case SetupFailed(e) =>
      return null, Some(e);
    case SetupOk(streams, probeReads) =>
      d := new RtpDemuxer(rtpin, streams, probeReads);
      return d, None;
  }
}
