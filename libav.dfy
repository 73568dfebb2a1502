/** The libavformat records the Go code reads and writes fields of. Their
    contents are opaque here: codec parameters are compared, never looked
    into. */
module Libav {
  import opened Base

  /** An AVCodecParameters, known by identity. */
  datatype CodecParameters = CodecParameters(handle: nat)

  /** An AVRational time base. */
  datatype Rational = Rational(num: int32, den: int32)

  /** An input stream found by probing: its codec parameters and time base. */
  datatype StreamInfo = StreamInfo(codecpar: CodecParameters, timeBase: Rational)

  /** A demuxed packet: the AVPacket fields the routing loop touches, and the
      time base the Go wrapper carries beside it. */
  datatype AvPacket = AvPacket(streamIndex: int32, data: seq<byte>, pts: int, dts: int, timeBase: Rational)

  /** The outcome of opening a demuxing session (NewRTPDemuxer's chain of
      libavformat calls, the temporary SDP file and probing), as one answer:
      an error from any step, or the stream table found together with the
      number of reads probing made through the read callback. Probing an SDP
      with one media description finds at least one stream. */
  datatype DemuxSetup = SetupFailed(err: GoError) | SetupOk(streams: seq<StreamInfo>, probeReads: nat)

  predicate WellFormedSetup(s: DemuxSetup)
  {
    s.SetupOk? ==> |s.streams| >= 1
  }
}
