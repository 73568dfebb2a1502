/** What one call of the RTP read callback (goReadBufferFunc) does, as values:
    the code it returns to libavformat, the bytes it copies into the caller's
    buffer, and the sequence number it remembers. Both versions of the
    demuxer are proved against these functions. */
module Rtp {
  import opened Base
  import opened AvErrors

  /** An RTP fixed header is 12 bytes; a packet read from the network fits
      in one UDP datagram. */
  const RTP_HEADER_LEN: nat := 12
  const MAX_DATAGRAM: nat := 65535

  /** The bytes rtp.Packet.Marshal produces for a packet. */
  type Wire = b: seq<byte> | RTP_HEADER_LEN <= |b| <= MAX_DATAGRAM
    witness seq(RTP_HEADER_LEN, _ => 0)

  datatype Marshaled = Marshaled(bytes: Wire) | MarshalFailed

  /** An RTP packet, with the outcome of marshaling it. */
  datatype RtpPacket = RtpPacket(sequenceNumber: uint16, marshal: Marshaled)

  /** Errors of ReadRTP: io.EOF, or any other error. */
  datatype SourceError = SourceEof | SourceFailure

  /** One answer of ReadRTP: a packet and a possibly nil error (the packet
      is ignored when the error is not nil). */
  datatype RtpRead = RtpRead(packet: RtpPacket, err: Option<SourceError>)

  /** The packet marshaled, and the bytes it marshaled to, if so. */
  predicate MarshaledOk(r: RtpRead)
  {
    r.err.None? && r.packet.marshal.Marshaled?
  }

  /** The code the callback returns for one answer of ReadRTP, given the
      size of the caller's buffer. */
  function ReadResult(r: RtpRead, bufsize: int32): (code: int32)
    requires 0 <= bufsize
    ensures code == AVERROR_EOF <==> r.err == Some(SourceEof)
    ensures code == AvError(EIO) <==> r.err == Some(SourceFailure)
    ensures code == AvError(EINVAL) <==> r.err.None? && r.packet.marshal.MarshalFailed?
    ensures code == AvError(ENOMEM) <==> MarshaledOk(r) && |r.packet.marshal.bytes| > bufsize as int
    ensures code >= 0 <==> MarshaledOk(r) && |r.packet.marshal.bytes| <= bufsize as int
    ensures code >= 0 ==> code as int == |r.packet.marshal.bytes| <= bufsize as int
  {
    match r.err
    case Some(SourceEof) => AVERROR_EOF
    case Some(SourceFailure) => AvError(EIO)
    case None =>
      match r.packet.marshal
      case MarshalFailed => AvError(EINVAL)
      case Marshaled(b) => if |b| > bufsize as int then AvError(ENOMEM) else |b| as int32
  }

  /** The bytes the callback copies to the front of the caller's buffer:
      the whole marshaled packet, or nothing. */
  function Copied(r: RtpRead, bufsize: int32): (b: seq<byte>)
    requires 0 <= bufsize
    ensures |b| <= bufsize as int
    ensures b != [] <==> ReadResult(r, bufsize) >= 0
    ensures b != [] ==> b == r.packet.marshal.bytes && |b| == ReadResult(r, bufsize) as int
  {
    if ReadResult(r, bufsize) >= 0 then r.packet.marshal.bytes else []
  }

  /** The remembered sequence number after one answer: that of the packet
      when it marshaled (whether or not it then fits), else unchanged. */
  function SeqAfter(prev: Option<uint16>, r: RtpRead): (next: Option<uint16>)
    ensures MarshaledOk(r) ==> next == Some(r.packet.sequenceNumber)
    ensures !MarshaledOk(r) ==> next == prev
  {
    if MarshaledOk(r) then Some(r.packet.sequenceNumber) else prev
  }

  /** The remembered sequence number after the first n answers, one by one. */
  function SeqAfterReads(prev: Option<uint16>, rtpin: nat -> RtpRead, n: nat): Option<uint16>
  {
    if n == 0 then prev else SeqAfter(SeqAfterReads(prev, rtpin, n - 1), rtpin(n - 1))
  }

  /** Reads none of whose packets marshal leave the remembered number as it was. */
  lemma {:induction false} SeqAfterReadsUnmarshaled(prev: Option<uint16>, rtpin: nat -> RtpRead, n: nat)
    requires forall i :: 0 <= i < n ==> !MarshaledOk(rtpin(i))
    ensures SeqAfterReads(prev, rtpin, n) == prev
  {
    if n > 0 {
      SeqAfterReadsUnmarshaled(prev, rtpin, n - 1);
    }
  }

  /** After n reads the remembered number is that of the last packet among
      them that marshaled. */
  lemma {:induction false} SeqAfterReadsIsLastMarshaled(prev: Option<uint16>, rtpin: nat -> RtpRead, n: nat, i: nat)
    requires i < n && MarshaledOk(rtpin(i))
    requires forall j :: i < j < n ==> !MarshaledOk(rtpin(j))
    ensures SeqAfterReads(prev, rtpin, n) == Some(rtpin(i).packet.sequenceNumber)
  {
    if i < n - 1 {
      SeqAfterReadsIsLastMarshaled(prev, rtpin, n - 1, i);
    }
  }

  /** A buffer after memcpy of `front` to its start. */
  function Overwrite(buf: seq<byte>, front: seq<byte>): (r: seq<byte>)
    requires |front| <= |buf|
    ensures |r| == |buf|
    ensures r[..|front|] == front && r[|front|..] == buf[|front|..]
  {
    front + buf[|front|..]
  }

  /** What libavformat reads from a callback code. */
  datatype Reading = Bytes(n: nat) | EndOfStream | IoError | Invalid | NoMemory | OtherError

  function Interpret(code: int32): Reading
  {
    if code >= 0 then Bytes(code as nat)
    else if code == AVERROR_EOF then EndOfStream
    else if code == AvError(EIO) then IoError
    else if code == AvError(EINVAL) then Invalid
    else if code == AvError(ENOMEM) then NoMemory
    else OtherError
  }

  /** No outcome is lost in the code: libavformat tells end of stream, a
      source error, a marshal failure, an oversized packet and delivered
      data apart, and on data it learns the exact number of bytes copied. */
  lemma ReadResultIsUnambiguous(r: RtpRead, bufsize: int32)
    requires 0 <= bufsize
    ensures Interpret(ReadResult(r, bufsize)) == match r.err
      case Some(SourceEof) => EndOfStream
      case Some(SourceFailure) => IoError
      case None => match r.packet.marshal
        case MarshalFailed => Invalid
        case Marshaled(b) => if |b| > bufsize as int then NoMemory else Bytes(|Copied(r, bufsize)|)
  {
    EofIsDistinct();
  }

  /** memcpy of `src` to the start of `dst`; the bytes after it stay. */
  method Memcpy(dst: array<byte>, src: seq<byte>)
    requires |src| <= dst.Length
    modifies dst
    ensures dst[..] == Overwrite(old(dst[..]), src)
  {
    forall i | 0 <= i < |src| {
      dst[i] := src[i];
    }
  }

  /** The sequence number that follows `s`, in 16-bit arithmetic. */
  function NextSeq(s: uint16): (n: uint16)
    ensures s < 0xFFFF ==> n as int == s as int + 1
    ensures s == 0xFFFF ==> n == 0
  {
    ((s as int + 1) % 0x1_0000) as uint16
  }

  /** The gap test of the root demuxer: a remembered number exists and the
      new one does not follow it. */
  function LostPackets(prev: Option<uint16>, s: uint16): (lost: bool)
    ensures prev.None? ==> !lost
    ensures prev.Some? && prev.value < 0xFFFF ==> (lost <==> s as int != prev.value as int + 1)
    ensures prev == Some(0xFFFF) ==> (lost <==> s != 0)
  {
    prev.Some? && s != NextSeq(prev.value)
  }

  /** The warnings ("prev", "seq") raised while packets with these sequence
      numbers marshal one after the other. */
  function GapWarnings(seen: seq<uint16>): (w: seq<(uint16, uint16)>)
    ensures |w| <= if seen == [] then 0 else |seen| - 1
    ensures forall k :: 0 <= k < |w| ==> LostPackets(Some(w[k].0), w[k].1)
  {
    if |seen| <= 1 then []
    else
      GapWarnings(seen[..|seen| - 1]) +
      (if LostPackets(Some(seen[|seen| - 2]), seen[|seen| - 1]) then [(seen[|seen| - 2], seen[|seen| - 1])] else [])
  }

  /** Numbers `start`, `start + 1`, ... in 16-bit arithmetic. */
  function Consecutive(start: uint16, n: nat): (s: seq<uint16>)
    ensures |s| == n
    ensures n > 0 ==> s[0] == start
    ensures forall i :: 0 < i < n ==> s[i] == NextSeq(s[i - 1])
  {
    if n == 0 then []
    else
      var front := Consecutive(start, n - 1);
      front + [if n == 1 then start else NextSeq(front[n - 2])]
  }

  /** An unbroken run, wrapping from 65535 to 0 included, raises no warning. */
  lemma {:induction false} ConsecutiveHasNoGaps(start: uint16, n: nat)
    ensures GapWarnings(Consecutive(start, n)) == []
  {
    if n > 1 {
      var s := Consecutive(start, n);
      assert s[..n - 1] == Consecutive(start, n - 1);
      ConsecutiveHasNoGaps(start, n - 1);
    }
  }

  /** Each warning names two numbers seen one right after the other, the
      second not following the first; there is at most one per packet after
      the first, and the first packet never warns. */
  lemma {:induction false} GapWarningsAreJumps(seen: seq<uint16>)
    ensures |GapWarnings(seen)| <= if |seen| == 0 then 0 else |seen| - 1
    ensures forall w :: w in GapWarnings(seen) ==>
      w.1 != NextSeq(w.0) && exists i :: 0 < i < |seen| && seen[i - 1] == w.0 && seen[i] == w.1
  {
    if |seen| > 1 {
      var front := seen[..|seen| - 1];
      GapWarningsAreJumps(front);
      forall w | w in GapWarnings(seen)
        ensures w.1 != NextSeq(w.0) && exists i :: 0 < i < |seen| && seen[i - 1] == w.0 && seen[i] == w.1
      {
        if w in GapWarnings(front) {
          var i :| 0 < i < |front| && front[i - 1] == w.0 && front[i] == w.1;
          assert seen[i - 1] == w.0 && seen[i] == w.1;
        } else {
          assert w == (seen[|seen| - 2], seen[|seen| - 1]);
        }
      }
    }
  }
}
