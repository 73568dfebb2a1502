/** demuxer.go: the demuxer with routing sinks. Its read callback takes
    either an RTP source (warning on sequence gaps) or a raw byte reader, and
    Run routes every demuxed frame to the sink of its stream. */
module RootDemux {
  import opened Base
  import opened AvErrors
  import opened Libav
  import opened Rtp

  /** An IndexedSink: where a stream's frames go, and the output stream
      index they are given. Its write is foreign: see `Run`'s replies. */
  datatype IndexedSink = IndexedSink(id: nat, index: int32)

  /** One answer of the raw reader's Read: the bytes it put in the buffer
      and a possibly nil error. */
  datatype RawRead = RawRead(data: seq<byte>, err: Option<SourceError>)

  /** One answer of av_read_frame: a packet, or a negative code. */
  datatype FrameRead = FrameOk(packet: AvPacket) | FrameFailed(code: NegativeCode)

  /** One WriteAVPacket call: the sink, the stream the frame came from, and
      the packet as handed over. */
  datatype Push = Push(sink: IndexedSink, stream: nat, packet: AvPacket)

  datatype RunResult = RunResult(err: GoError, pushes: seq<Push>, framesRead: nat)

  const MISMATCH := "number of streams does not match number of sinks"

  /** The size of the buffer NewRTPDemuxer gives avio_alloc_context: every
      callback read asks for at most this many bytes. */
  const AVIO_BUFSIZE: int32 := 1500

  /** The callback reads the first n av_read_frame calls make, when the k-th
      call makes pulls(k) of them. */
  function PullsBefore(pulls: nat -> nat, n: nat): (total: nat)
    ensures n > 0 ==> total >= pulls(n - 1)
  {
    if n == 0 then 0 else PullsBefore(pulls, n - 1) + pulls(n - 1)
  }

  /** The code the callback returns for one answer of the raw reader. */
  function RawResult(r: RawRead, bufsize: int32): (code: int32)
    requires |r.data| <= bufsize as int
    ensures code == AVERROR_EOF <==> r.err == Some(SourceEof)
    ensures code == AvError(EIO) <==> r.err == Some(SourceFailure)
    ensures code >= 0 <==> r.err.None?
    ensures code >= 0 ==> code as int == |r.data| <= bufsize as int
  {
    match r.err
    case Some(SourceEof) => AVERROR_EOF
    case Some(SourceFailure) => AvError(EIO)
    case None => |r.data| as int32
  }

  /** The bytes the callback copies from the raw reader: all it read when
      there is no error; what came with an error is dropped. */
  function RawCopied(r: RawRead): (b: seq<byte>)
    ensures r.err.None? ==> b == r.data
    ensures r.err.Some? ==> b == []
  {
    if r.err.None? then r.data else []
  }

  /** The engine's answers end with a failed read (end of stream at the
      latest), and every frame names a stream of the table. */
  predicate FramesEnd(frames: seq<FrameRead>)
  {
    |frames| > 0 && frames[|frames| - 1].FrameFailed?
  }

  predicate IndicesValid(frames: seq<FrameRead>, n: nat)
  {
    forall k :: 0 <= k < |frames| && frames[k].FrameOk? ==> 0 <= frames[k].packet.streamIndex as int < n
  }

  /** A push as Run makes it: the sink of the stream the packet came from,
      the packet renumbered to the sink's index and given that stream's
      time base, its payload and timestamps untouched. */
  predicate Remapped(sinks: seq<Option<IndexedSink>>, streams: seq<StreamInfo>, q: Push)
  {
    && q.stream < |sinks| && q.stream < |streams|
    && sinks[q.stream] == Some(q.sink)
    && q.packet.streamIndex == q.sink.index
    && q.packet.timeBase == streams[q.stream].timeBase
  }

  /** What Run does with one demuxed packet: a push to its stream's sink,
      or nothing when that sink is nil. */
  function RouteOne(sinks: seq<Option<IndexedSink>>, streams: seq<StreamInfo>, p: AvPacket): (r: seq<Push>)
    requires |sinks| == |streams| && 0 <= p.streamIndex as int < |sinks|
    ensures r == [] <==> sinks[p.streamIndex].None?
    ensures r != [] ==> |r| == 1 && Remapped(sinks, streams, r[0]) && r[0].stream == p.streamIndex as int
    ensures r != [] ==> r[0].packet.data == p.data && r[0].packet.pts == p.pts && r[0].packet.dts == p.dts
  {
    var s := p.streamIndex as int;
    match sinks[s]
    case None => []
    case Some(sink) => [Push(sink, s, p.(timeBase := streams[s].timeBase, streamIndex := sink.index))]
  }

  /** The pushes for a run of frames, in read order. */
  function RouteAll(sinks: seq<Option<IndexedSink>>, streams: seq<StreamInfo>, fs: seq<FrameRead>): (r: seq<Push>)
    requires |sinks| == |streams| && IndicesValid(fs, |sinks|)
    ensures |r| <= |fs|
    ensures forall i :: 0 <= i < |r| ==> Remapped(sinks, streams, r[i])
  {
    if fs == [] then []
    else
      (if fs[0].FrameOk? then RouteOne(sinks, streams, fs[0].packet) else []) +
      RouteAll(sinks, streams, fs[1..])
  }

  /** The rest of Run from the k-th read on, with `pushes` made so far. */
  function RunFrom(sinks: seq<Option<IndexedSink>>, streams: seq<StreamInfo>, frames: seq<FrameRead>,
                   replies: nat -> Option<GoError>, k: nat, pushes: seq<Push>): RunResult
    requires |sinks| == |streams| && FramesEnd(frames) && IndicesValid(frames, |sinks|) && k < |frames|
    decreases |frames| - k
  {
    match frames[k]
    case FrameFailed(code) => RunResult(AvErr("av_read_frame", code), pushes, k + 1)
    case FrameOk(p) =>
      var routed := RouteOne(sinks, streams, p);
      if routed == [] then RunFrom(sinks, streams, frames, replies, k + 1, pushes)
      else if replies(|pushes|).Some? then RunResult(replies(|pushes|).value, pushes + routed, k + 1)
      else RunFrom(sinks, streams, frames, replies, k + 1, pushes + routed)
  }

  /** Run as a whole: fail before reading when the tables differ in size. */
  function RunSpec(sinks: seq<Option<IndexedSink>>, streams: seq<StreamInfo>, frames: seq<FrameRead>,
                   replies: nat -> Option<GoError>): RunResult
    requires FramesEnd(frames) && IndicesValid(frames, |streams|)
  {
    if |sinks| != |streams| then RunResult(Message(MISMATCH), [], 0)
    else RunFrom(sinks, streams, frames, replies, 0, [])
  }

  /** The pushes of a run from the k-th read on: those made so far, then the
      routed frames it reads, in order. */
  lemma {:induction false} RunFromPushes(sinks: seq<Option<IndexedSink>>, streams: seq<StreamInfo>, frames: seq<FrameRead>,
                                        replies: nat -> Option<GoError>, k: nat, pushes: seq<Push>)
    requires |sinks| == |streams| && FramesEnd(frames) && IndicesValid(frames, |sinks|) && k < |frames|
    ensures PushesFrom(sinks, streams, frames, replies, k, pushes)
    decreases |frames| - k, 1
  {
    if frames[k].FrameFailed? {
      StopStep(sinks, streams, frames, replies, k, pushes);
    } else if RouteOne(sinks, streams, frames[k].packet) == [] {
      SkipStep(sinks, streams, frames, replies, k, pushes);
    } else if replies(|pushes|).Some? {
      StopStep(sinks, streams, frames, replies, k, pushes);
    } else {
      PushStep(sinks, streams, frames, replies, k, pushes);
    }
  }

  ghost predicate PushesFrom(sinks: seq<Option<IndexedSink>>, streams: seq<StreamInfo>, frames: seq<FrameRead>,
                             replies: nat -> Option<GoError>, k: nat, pushes: seq<Push>)
    requires |sinks| == |streams| && FramesEnd(frames) && IndicesValid(frames, |sinks|) && k < |frames|
  {
    var r := RunFrom(sinks, streams, frames, replies, k, pushes);
    k < r.framesRead <= |frames| && r.pushes == pushes + RouteAll(sinks, streams, frames[k..r.framesRead])
  }

  /** A run that stops at the k-th read: a failed read, or a push whose
      write fails. */
  lemma StopStep(sinks: seq<Option<IndexedSink>>, streams: seq<StreamInfo>, frames: seq<FrameRead>,
                 replies: nat -> Option<GoError>, k: nat, pushes: seq<Push>)
    requires |sinks| == |streams| && FramesEnd(frames) && IndicesValid(frames, |sinks|) && k < |frames|
    requires frames[k].FrameFailed? ||
      (RouteOne(sinks, streams, frames[k].packet) != [] && replies(|pushes|).Some?)
    ensures PushesFrom(sinks, streams, frames, replies, k, pushes)
  {
    RouteAllStep(sinks, streams, frames, k, k + 1);
    assert RouteAll(sinks, streams, frames[k + 1..k + 1]) == [];
  }

  /** A read whose stream has no sink adds nothing and the run goes on. */
  lemma SkipStep(sinks: seq<Option<IndexedSink>>, streams: seq<StreamInfo>, frames: seq<FrameRead>,
                 replies: nat -> Option<GoError>, k: nat, pushes: seq<Push>)
    requires |sinks| == |streams| && FramesEnd(frames) && IndicesValid(frames, |sinks|) && k < |frames|
    requires frames[k].FrameOk? && RouteOne(sinks, streams, frames[k].packet) == []
    ensures PushesFrom(sinks, streams, frames, replies, k, pushes)
    decreases |frames| - k, 0
  {
    RunFromPushes(sinks, streams, frames, replies, k + 1, pushes);
    var r := RunFrom(sinks, streams, frames, replies, k + 1, pushes);
    assert RunFrom(sinks, streams, frames, replies, k, pushes) == r;
    RouteAllStep(sinks, streams, frames, k, r.framesRead);
  }

  /** A push whose write succeeds is followed by the rest of the run. */
  lemma PushStep(sinks: seq<Option<IndexedSink>>, streams: seq<StreamInfo>, frames: seq<FrameRead>,
                 replies: nat -> Option<GoError>, k: nat, pushes: seq<Push>)
    requires |sinks| == |streams| && FramesEnd(frames) && IndicesValid(frames, |sinks|) && k < |frames|
    requires frames[k].FrameOk? && RouteOne(sinks, streams, frames[k].packet) != [] && replies(|pushes|).None?
    ensures PushesFrom(sinks, streams, frames, replies, k, pushes)
    decreases |frames| - k, 0
  {
    var routed := RouteOne(sinks, streams, frames[k].packet);
    RunFromPushes(sinks, streams, frames, replies, k + 1, pushes + routed);
    var r := RunFrom(sinks, streams, frames, replies, k + 1, pushes + routed);
    assert RunFrom(sinks, streams, frames, replies, k, pushes) == r;
    var rest := RouteAll(sinks, streams, frames[k + 1..r.framesRead]);
    RouteAllStep(sinks, streams, frames, k, r.framesRead);
    assert (pushes + routed) + rest == pushes + (routed + rest);
  }

  lemma {:induction false} RunFromStops(sinks: seq<Option<IndexedSink>>, streams: seq<StreamInfo>, frames: seq<FrameRead>,
                                       replies: nat -> Option<GoError>, k: nat, pushes: seq<Push>)
    requires |sinks| == |streams| && FramesEnd(frames) && IndicesValid(frames, |sinks|) && k < |frames|
    ensures var r := RunFrom(sinks, streams, frames, replies, k, pushes);
      && k < r.framesRead <= |frames| && |pushes| <= |r.pushes|
      && (forall j :: k <= j < r.framesRead - 1 ==> frames[j].FrameOk?)
      && (forall j :: |pushes| <= j < |r.pushes| - 1 ==> replies(j).None?)
      && (frames[r.framesRead - 1].FrameFailed? ==>
            && r.err == AvErr("av_read_frame", frames[r.framesRead - 1].code)
            && forall j :: |pushes| <= j < |r.pushes| ==> replies(j).None?)
      && (frames[r.framesRead - 1].FrameOk? ==> |r.pushes| > |pushes| && replies(|r.pushes| - 1) == Some(r.err))
    decreases |frames| - k
  {
    match frames[k]
    case FrameFailed(code) =>
    case FrameOk(p) =>
      var routed := RouteOne(sinks, streams, p);
      if routed == [] {
        RunFromStops(sinks, streams, frames, replies, k + 1, pushes);
      } else if replies(|pushes|).Some? {
      } else {
        RunFromStops(sinks, streams, frames, replies, k + 1, pushes + routed);
      }
  }

  lemma RouteAllStep(sinks: seq<Option<IndexedSink>>, streams: seq<StreamInfo>, frames: seq<FrameRead>, k: nat, n: nat)
    requires |sinks| == |streams| && IndicesValid(frames, |sinks|) && k < n <= |frames|
    ensures RouteAll(sinks, streams, frames[k..n]) ==
      (if frames[k].FrameOk? then RouteOne(sinks, streams, frames[k].packet) else []) + RouteAll(sinks, streams, frames[k + 1..n])
  {
    assert frames[k..n][1..] == frames[k + 1..n];
  }

  /** What Run promises: when the tables match it reads frames in order up
      to the first failed read or failed sink write, pushes exactly the
      routed frames it read, in read order, each one renumbered to its sink
      and given its stream's time base, and returns that failure, never nil. */
  lemma RunDeliversInOrder(sinks: seq<Option<IndexedSink>>, streams: seq<StreamInfo>, frames: seq<FrameRead>,
                           replies: nat -> Option<GoError>)
    requires FramesEnd(frames) && IndicesValid(frames, |streams|) && |sinks| == |streams|
    ensures var r := RunSpec(sinks, streams, frames, replies);
      && 0 < r.framesRead <= |frames|
      && r.pushes == RouteAll(sinks, streams, frames[..r.framesRead])
      && (forall i :: 0 <= i < |r.pushes| ==> Remapped(sinks, streams, r.pushes[i]))
      && (forall j :: 0 <= j < r.framesRead - 1 ==> frames[j].FrameOk?)
      && (forall j :: 0 <= j < |r.pushes| - 1 ==> replies(j).None?)
      && (frames[r.framesRead - 1].FrameFailed? ==>
            && r.err == AvErr("av_read_frame", frames[r.framesRead - 1].code)
            && forall j :: 0 <= j < |r.pushes| ==> replies(j).None?)
      && (frames[r.framesRead - 1].FrameOk? ==> |r.pushes| > 0 && replies(|r.pushes| - 1) == Some(r.err))
  {
    RunFromPushes(sinks, streams, frames, replies, 0, []);
    RunFromStops(sinks, streams, frames, replies, 0, []);
    var r := RunSpec(sinks, streams, frames, replies);
    assert frames[0..r.framesRead] == frames[..r.framesRead];
  }

  /** One turn of Run's loop after av_read_frame answered: a failed read
      stops the run with av_err of its code; a frame whose stream has a sink
      is renumbered and written, and a failed write stops the run with the
      sink's error; otherwise the loop goes on to the next read. */
  method RouteFrame(sinks: seq<Option<IndexedSink>>, streams: seq<StreamInfo>, frames: seq<FrameRead>,
                    replies: nat -> Option<GoError>, k: nat, pushes: seq<Push>)
    returns (stop: bool, err: GoError, after: seq<Push>)
    requires |sinks| == |streams| && FramesEnd(frames) && IndicesValid(frames, |sinks|) && k < |frames|
    ensures stop ==> RunFrom(sinks, streams, frames, replies, k, pushes) == RunResult(err, after, k + 1)
    ensures !stop ==> k + 1 < |frames| && RunFrom(sinks, streams, frames, replies, k + 1, after) == RunFrom(sinks, streams, frames, replies, k, pushes)
  {
    after := pushes;
    match frames[k]
    case FrameFailed(code) =>
      return true, AvErr("av_read_frame", code), after;
    case FrameOk(p) =>
      var streamidx := p.streamIndex as int;
      var sink := sinks[streamidx];
      if sink.Some? {
        var q := p.(timeBase := streams[streamidx].timeBase, streamIndex := sink.value.index);
        var reply := replies(|pushes|);
        after := pushes + [Push(sink.value, streamidx, q)];
        if reply.Some? {
          return true, reply.value, after;
        }
      }
      return false, EOF, after;
  }

  /** The sequence number a read adds to those seen: one when the packet
      marshaled, none otherwise. */
  function SeenAfter(p: RtpRead): seq<uint16>
  {
    if MarshaledOk(p) then [p.packet.sequenceNumber] else []
  }

  /** The sequence numbers the first n reads of an RTP source leave
      seen: those of the packets that marshaled, in read order. */
  function SeenUpTo(src: nat -> RtpRead, n: nat): (s: seq<uint16>)
    ensures |s| <= n
  {
    if n == 0 then [] else SeenUpTo(src, n - 1) + SeenAfter(src(n - 1))
  }

  /** Seeing one more number adds the warning the gap test raises for it. */
  lemma GapWarningsStep(seen: seq<uint16>, s: uint16)
    ensures GapWarnings(seen + [s]) ==
      GapWarnings(seen) + (if LostPackets(if seen == [] then None else Some(seen[|seen| - 1]), s)
                           then [(seen[|seen| - 1], s)] else [])
  {
    assert (seen + [s])[..|seen|] == seen;
  }

  class RtpDemuxer {
    var Sinks: seq<Option<IndexedSink>>
    /** The stream table the engine found. */
    const streams: seq<StreamInfo>
    /** The RTP source (its k-th ReadRTP answer), or nil. */
    const rtpin: Option<nat -> RtpRead>
    /** The raw reader used when there is no RTP source (its k-th answer). */
    const rawin: nat -> RawRead
    /** Reads made from whichever source is in use. */
    var consumed: nat
    var rtpseq: Option<uint16>
    /** Sequence numbers of the packets that marshaled, in order. */
    ghost var seen: seq<uint16>
    /** The "lost packets" warnings logged, as (prev, seq). */
    ghost var lostPacketWarnings: seq<(uint16, uint16)>

    /** The remembered number is the last one seen, and a warning was
        logged for every gap among those seen. */
    ghost predicate Logged()
      reads this
    {
      && rtpseq == (if seen == [] then None else Some(seen[|seen| - 1]))
      && lostPacketWarnings == GapWarnings(seen)
    }

    /** Logged, and the numbers seen are those of the reads made so far. */
    ghost predicate Valid()
      reads this
    {
      && Logged()
      && (rtpin.Some? ==> seen == SeenUpTo(rtpin.value, consumed))
      && (rtpin.None? ==> seen == [])
    }

    constructor (sinks: seq<Option<IndexedSink>>, streams: seq<StreamInfo>, rtpin: Option<nat -> RtpRead>, rawin: nat -> RawRead)
      ensures Valid()
      ensures Sinks == sinks && this.streams == streams && this.rtpin == rtpin && this.rawin == rawin
      ensures consumed == 0 && rtpseq == None && seen == [] && lostPacketWarnings == []
    {
      Sinks := sinks;
      this.streams := streams;
      this.rtpin := rtpin;
      this.rawin := rawin;
      consumed := 0;
      rtpseq := None;
      seen := [];
      lostPacketWarnings := [];
    }

    /** goReadBufferFunc. With an RTP source it behaves as the package
        version does, and besides logs a warning when the packet does not
        follow the last one; the warning changes neither the code nor the
        buffer. Without one it reads once from the raw reader. */
    method ReadBuffer(cbuf: array<byte>, bufsize: int32) returns (r: int32)
      requires Valid()
      requires 0 <= bufsize as int <= cbuf.Length
      requires rtpin.None? ==> 0 < bufsize && |rawin(consumed).data| <= bufsize as int
      modifies this`consumed, this`rtpseq, this`seen, this`lostPacketWarnings, cbuf
      ensures Valid()
      ensures consumed == old(consumed) + 1
      ensures rtpin.Some? ==>
        && r == ReadResult(rtpin.value(old(consumed)), bufsize)
        && cbuf[..] == Overwrite(old(cbuf[..]), Copied(rtpin.value(old(consumed)), bufsize))
        && rtpseq == SeqAfter(old(rtpseq), rtpin.value(old(consumed)))
        && seen == old(seen) + SeenAfter(rtpin.value(old(consumed)))
      ensures rtpin.None? ==>
        && r == RawResult(rawin(old(consumed)), bufsize)
        && cbuf[..] == Overwrite(old(cbuf[..]), RawCopied(rawin(old(consumed))))
        && rtpseq == old(rtpseq) && seen == old(seen)
    {
      if rtpin.Some? {
        r := ReadRtp(cbuf, bufsize);
      } else {
        r := ReadRaw(cbuf, bufsize);
      }
    }

    /** The RTP path of goReadBufferFunc. */
    method ReadRtp(cbuf: array<byte>, bufsize: int32) returns (r: int32)
      requires Valid() && rtpin.Some?
      requires 0 <= bufsize as int <= cbuf.Length
      modifies this`consumed, this`rtpseq, this`seen, this`lostPacketWarnings, cbuf
      ensures Valid()
      ensures consumed == old(consumed) + 1
      ensures r == ReadResult(rtpin.value(old(consumed)), bufsize)
      ensures cbuf[..] == Overwrite(old(cbuf[..]), Copied(rtpin.value(old(consumed)), bufsize))
      ensures rtpseq == SeqAfter(old(rtpseq), rtpin.value(old(consumed)))
      ensures seen == old(seen) + SeenAfter(rtpin.value(old(consumed)))
    {
      var p := rtpin.value(consumed);
      consumed := consumed + 1;
      if p.err.Some? {
        if p.err.value != SourceEof {
          return AvError(EIO);
        }
        return AVERROR_EOF;
      }
      if p.packet.marshal.MarshalFailed? {
        return AvError(EINVAL);
      }
      var b := p.packet.marshal.bytes;
      Remember(p.packet.sequenceNumber);
      if |b| > bufsize as int {
        return AvError(ENOMEM);
      }
      Memcpy(cbuf, b);
      return |b| as int32;
    }

    /** The gap check and the update of the remembered sequence number. */
    method Remember(s: uint16)
      requires Logged()
      modifies this`rtpseq, this`seen, this`lostPacketWarnings
      ensures Logged()
      ensures rtpseq == Some(s) && seen == old(seen) + [s]
      ensures lostPacketWarnings == old(lostPacketWarnings) + (if LostPackets(old(rtpseq), s) then [(old(rtpseq).value, s)] else [])
    {
      if LostPackets(rtpseq, s) {
        lostPacketWarnings := lostPacketWarnings + [(rtpseq.value, s)];
      }
      GapWarningsStep(seen, s);
      rtpseq := Some(s);
      seen := seen + [s];
    }

    /** The raw-reader path of goReadBufferFunc. */
    method ReadRaw(cbuf: array<byte>, bufsize: int32) returns (r: int32)
      requires 0 < bufsize as int <= cbuf.Length
      requires |rawin(consumed).data| <= bufsize as int
      modifies this`consumed, cbuf
      ensures consumed == old(consumed) + 1
      ensures r == RawResult(rawin(old(consumed)), bufsize)
      ensures cbuf[..] == Overwrite(old(cbuf[..]), RawCopied(rawin(old(consumed))))
    {
      var q := rawin(consumed);
      consumed := consumed + 1;
      if q.err.Some? {
        if q.err.value != SourceEof {
          return AvError(EIO);
        }
        return AVERROR_EOF;
      }
      Memcpy(cbuf, q.data);
      return |q.data| as int32;
    }

    /** goWriteRTCPPacketFunc: accepts every write and discards it. */
    method WriteRtcpPacket(buf: seq<byte>, bufsize: int32) returns (r: int32)
      ensures r == bufsize
    {
      return bufsize;
    }

    /** The callback reads one av_read_frame call makes: n calls of
        goReadBufferFunc on libavformat's buffer, whose bytes the model does
        not follow further. */
    method Pull(cbuf: array<byte>, n: nat)
      requires Valid() && cbuf.Length == AVIO_BUFSIZE as int
      requires rtpin.None? ==> forall k :: consumed <= k ==> |rawin(k).data| <= AVIO_BUFSIZE as int
      modifies this`consumed, this`rtpseq, this`seen, this`lostPacketWarnings, cbuf
      ensures Valid()
      ensures consumed == old(consumed) + n
    {
      var i := 0;
      while i < n
        invariant 0 <= i <= n && Valid()
        invariant consumed == old(consumed) + i
      {
        var _ := ReadBuffer(cbuf, AVIO_BUFSIZE);
        i := i + 1;
      }
    }

    /** The reads of the k-th av_read_frame call, after those of the k
        calls before it, made from a start at `from` reads. */
    method PullFrame(cbuf: array<byte>, pulls: nat -> nat, k: nat, ghost from: nat)
      requires Valid() && cbuf.Length == AVIO_BUFSIZE as int
      requires consumed == from + PullsBefore(pulls, k)
      requires rtpin.None? ==> forall j :: from <= j ==> |rawin(j).data| <= AVIO_BUFSIZE as int
      modifies this`consumed, this`rtpseq, this`seen, this`lostPacketWarnings, cbuf
      ensures Valid() && consumed == from + PullsBefore(pulls, k + 1)
    {
      Pull(cbuf, pulls(k));
    }

    /** Run: the routing loop, over the engine's av_read_frame answers, the
        number of callback reads each of those calls makes, and the sinks'
        WriteAVPacket replies (the reply to the j-th write). */
    method Run(frames: seq<FrameRead>, pulls: nat -> nat, replies: nat -> Option<GoError>) returns (err: GoError, pushes: seq<Push>, framesRead: nat)
      requires Valid()
      requires FramesEnd(frames) && IndicesValid(frames, |streams|)
      requires rtpin.None? ==> forall k :: consumed <= k ==> |rawin(k).data| <= AVIO_BUFSIZE as int
      modifies this`consumed, this`rtpseq, this`seen, this`lostPacketWarnings
      ensures Valid()
      ensures RunResult(err, pushes, framesRead) == RunSpec(Sinks, streams, frames, replies)
      ensures consumed == old(consumed) + PullsBefore(pulls, framesRead)
    {
      if |Sinks| != |streams| {
        return Message(MISMATCH), [], 0;
      }
      err, pushes, framesRead := RouteFrames(Sinks, frames, pulls, replies);
    }

    /** The loop of Run once the tables are known to match. */
    method RouteFrames(sinks: seq<Option<IndexedSink>>, frames: seq<FrameRead>, pulls: nat -> nat, replies: nat -> Option<GoError>)
      returns (err: GoError, pushes: seq<Push>, framesRead: nat)
      requires Valid() && |sinks| == |streams|
      requires FramesEnd(frames) && IndicesValid(frames, |sinks|)
      requires rtpin.None? ==> forall k :: consumed <= k ==> |rawin(k).data| <= AVIO_BUFSIZE as int
      modifies this`consumed, this`rtpseq, this`seen, this`lostPacketWarnings
      ensures Valid()
      ensures RunResult(err, pushes, framesRead) == RunFrom(sinks, streams, frames, replies, 0, [])
      ensures consumed == old(consumed) + PullsBefore(pulls, framesRead)
    {
      var cbuf := new byte[AVIO_BUFSIZE];
      var k := 0;
      pushes := [];
      while true
        invariant 0 <= k < |frames|
        invariant RunFrom(sinks, streams, frames, replies, k, pushes) == RunFrom(sinks, streams, frames, replies, 0, [])
        invariant Valid() && consumed == old(consumed) + PullsBefore(pulls, k)
        decreases |frames| - k
      {
        PullFrame(cbuf, pulls, k, old(consumed));
        var stop, e, after := RouteFrame(sinks, streams, frames, replies, k, pushes);
        if stop {
          return e, after, k + 1;
        }
        pushes := after;
        k := k + 1;
      }
    }
  }
}
