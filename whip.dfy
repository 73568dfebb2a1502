/** pkg/whiptompegts/whiptompegts.go: the WHIP endpoint (RFC 9725, section 4).
    POST creates a session and registers its peer connection under a fresh
    id once negotiation has fully succeeded; PATCH renegotiates a registered
    session; DELETE closes and unregisters one. Each session's background
    build waits for all of its tracks, builds one demuxer per track and the
    muxer, hands the muxer to the stream callback and unregisters the
    session when the callback returns. Calls are modelled one at a time. */
module Whip {
  import opened Base
  import opened Libav
  import opened Rtp
  import PkgDemux
  import PkgMux

  datatype HttpMethod = GET | POST | PATCH | DELETE | OtherMethod(name: string)

  /** An HTTP request; its body is None when reading it fails. */
  datatype Request = Request(verb: HttpMethod, path: string, host: string, contentType: string, body: Option<string>)

  datatype Response = Response(status: int, headers: map<string, string>, body: string)

  /** What net/http's ResponseWriter keeps: the status is fixed by the first
      WriteHeader, or by the first Write (200); later WriteHeader calls are
      ignored. */
  datatype Writer = Writer(status: Option<int>, headers: map<string, string>, body: string)
  {
    function WriteHeader(code: int): Writer
    {
      if status.Some? then this else this.(status := Some(code))
    }

    function SetHeader(key: string, value: string): Writer
    {
      this.(headers := headers[key := value])
    }

    /** Write commits status 200 first; the bytes go out only when the
        write succeeds. */
    function Write(data: string, ok: bool): Writer
    {
      var w := WriteHeader(200);
      if ok then w.(body := w.body + data) else w
    }

    function Finish(): Response
    {
      Response(if status.Some? then status.value else 200, headers, body)
    }
  }

  const EmptyWriter := Writer(None, map[], "")

  /** pion's answers while a POST negotiates: whether NewPeerConnection,
      SetRemoteDescription(offer) and CreateAnswer succeed, the number of
      media descriptions of the unmarshaled answer (None: it does not
      unmarshal), whether SetLocalDescription succeeds, the local SDP after
      ICE gathering, and whether writing it to the response succeeds. */
  datatype Negotiation = Negotiation(
    peerConnection: bool,
    remoteDescription: bool,
    answer: bool,
    mediaCount: Option<nat>,
    localDescription: bool,
    localSdp: string,
    written: bool)

  /** A webrtc.PeerConnection, as far as this file changes it. */
  class PeerConnection {
    var closed: bool
    /** The remote descriptions set on it: the offer, then each renegotiation. */
    var remote: seq<string>

    constructor ()
      ensures !closed && remote == []
    {
      closed := false;
      remote := [];
    }
  }

  /** A build goroutine waiting to run: the session's connection and the
      number of tracks it waits for. */
  datatype Build = Build(pc: PeerConnection, trackCount: nat)

  /** One answer of a remote track's ReadRTP: a packet, its interceptor
      attributes and a possibly nil error. */
  datatype TrackRead = TrackRead(packet: RtpPacket, attributes: map<string, string>, err: Option<SourceError>)

  /** A remote track: its codec and its k-th ReadRTP answer. */
  datatype Track = Track(codec: CodecParameters, answers: nat -> TrackRead)

  /** TrackReader.ReadRTP: the track's packet and error, attributes dropped. */
  function ReadRtp(t: TrackRead): (r: RtpRead)
    ensures r.packet == t.packet && r.err == t.err
  {
    RtpRead(t.packet, t.err)
  }

  /** The RTP source a TrackReader over this track gives. */
  function TrackReader(t: Track): (rtpin: nat -> RtpRead)
    ensures forall k: nat :: rtpin(k).packet == t.answers(k).packet && rtpin(k).err == t.answers(k).err
  {
    (k: nat) => ReadRtp(t.answers(k))
  }

  /** How a build ends: still blocked waiting for a track, a demuxer or the
      muxer could not be built, or the stream was handed to the callback. */
  datatype BuildOutcome =
    | AwaitingTrack(received: nat)
    | DemuxerFailed(track: nat, err: GoError)
    | MuxerFailed(err: GoError)
    | Streamed(demuxers: seq<PkgDemux.RtpDemuxer>, muxer: PkgMux.MpegtsMuxer)

  /** The session id a request addresses: its path without the leading "/". */
  function SessionId(path: string): (id: string)
    requires |path| >= 1
    ensures [path[0]] + id == path
  {
    path[1..]
  }

  /** The Location header a successful POST sets. */
  function Location(host: string, id: string): (loc: string)
    ensures |loc| == 7 + |host| + 1 + |id|
    ensures loc[..7] == "http://" && loc[7..7 + |host|] == host && loc[7 + |host|] == '/'
    ensures loc[|loc| - |id|..] == id
  {
    "http://" + host + "/" + id
  }

  /** The path of an absolute http URL: from the first '/' after the scheme. */
  function UrlPath(url: string): string
  {
    if |url| >= 7 && url[..7] == "http://" then FromFirstSlash(url[7..]) else url
  }

  function FromFirstSlash(s: string): (r: string)
  {
    if s == [] then [] else if s[0] == '/' then s else FromFirstSlash(s[1..])
  }

  lemma {:induction false} FromFirstSlashSkipsHost(host: string, rest: string)
    requires forall i :: 0 <= i < |host| ==> host[i] != '/'
    ensures FromFirstSlash(host + "/" + rest) == "/" + rest
  {
    if host != [] {
      assert (host + "/" + rest)[1..] == host[1..] + "/" + rest;
      FromFirstSlashSkipsHost(host[1..], rest);
    }
  }

  /** A client that follows the Location header of a successful POST
      addresses the very registry entry the POST made. */
  lemma LocationAddressesSession(host: string, id: string)
    requires forall i :: 0 <= i < |host| ==> host[i] != '/'
    ensures |UrlPath(Location(host, id))| >= 1
    ensures SessionId(UrlPath(Location(host, id))) == id
  {
    var url := Location(host, id);
    assert url[..7] == "http://";
    assert url[7..] == host + "/" + id;
    FromFirstSlashSkipsHost(host, id);
  }

  /** Every step of a POST succeeds: the body is read, pion negotiates and
      the answer is written. */
  predicate PostSucceeds(r: Request, neg: Negotiation)
  {
    && r.body.Some? && neg.peerConnection && neg.remoteDescription && neg.answer
    && neg.mediaCount.Some? && neg.localDescription && neg.written
  }

  /** The status a POST that does not register a session answers with: 400
      when the body cannot be read, 500 when negotiation fails, and 200 when
      only writing the answer fails, since Write has already committed the
      status by then. */
  function PostFailureStatus(r: Request, neg: Negotiation): int
  {
    if r.body.None? then 400
    else if !(neg.peerConnection && neg.remoteDescription && neg.answer && neg.mediaCount.Some? && neg.localDescription) then 500
    else 200
  }

  class Server {
    /** The session registry. */
    var pcs: map<string, PeerConnection>
    /** Build goroutines started and not yet finished. */
    var builds: map<string, Build>
    /** The ids OnMPEGTSStream was called with, in call order. */
    var streamed: seq<string>
    /** Every id a POST has registered. */
    ghost var issued: set<string>

    ghost predicate Valid()
      reads this
    {
      && pcs.Keys <= issued
      && builds.Keys <= issued
      && (forall id :: id in builds ==> builds[id].trackCount < 0x8000_0000)
      && NoDuplicates(streamed)
      && (forall i :: 0 <= i < |streamed| ==> streamed[i] in issued && streamed[i] !in builds)
    }

    /** NewServer: an empty registry. */
    constructor ()
      ensures Valid()
      ensures pcs == map[] && builds == map[] && streamed == [] && issued == {}
    {
      pcs := map[];
      builds := map[];
      streamed := [];
      issued := {};
    }

    /** Handler. `neg` and `pcid` are pion's answers and the fresh uuid for
        a POST, `renegotiated` whether SetRemoteDescription succeeds for a
        PATCH, `closes` whether pc.Close succeeds for a DELETE. */
    method Handler(r: Request, neg: Negotiation, pcid: string, renegotiated: bool, closes: bool) returns (c: Call<Response>)
      requires Valid()
      requires r.verb == POST ==> pcid !in issued
      requires neg.mediaCount.Some? ==> neg.mediaCount.value < 0x8000_0000
      modifies this, pcs.Values
      ensures Valid()
      ensures streamed == old(streamed)
      // An empty path: slicing off the leading "/" panics before any method is looked at.
      ensures r.path == [] ==>
        c.Panics? && pcs == old(pcs) && builds == old(builds) && issued == old(issued) && unchanged(old(pcs).Values)
      // GET: 405 and nothing changes.
      ensures r.verb == GET && r.path != [] ==>
        && c == Returns(Response(405, map[], "")) && pcs == old(pcs) && builds == old(builds) && issued == old(issued)
        && unchanged(old(pcs).Values)
      // POST: one new entry and one build, under the fresh id, only when every step succeeds.
      ensures r.path != [] && r.verb == POST ==> c.Returns? && unchanged(old(pcs).Values)
      ensures r.path != [] && r.verb == POST && PostSucceeds(r, neg) ==>
        && issued == old(issued) + {pcid}
        && pcid !in old(pcs) && pcid in pcs && fresh(pcs[pcid])
        && pcs == old(pcs)[pcid := pcs[pcid]]
        && builds == old(builds)[pcid := Build(pcs[pcid], neg.mediaCount.value)]
        && !pcs[pcid].closed && pcs[pcid].remote == [r.body.value]
        && c.value == Response(200, map["Content-Type" := "application/sdp", "Location" := Location(r.host, pcid)], neg.localSdp)
      ensures r.path != [] && r.verb == POST && !PostSucceeds(r, neg) ==>
        && pcs == old(pcs) && builds == old(builds) && issued == old(issued)
        && c.value.status == PostFailureStatus(r, neg)
      // PATCH: never changes the registry.
      ensures r.path != [] && r.verb == PATCH ==> pcs == old(pcs) && builds == old(builds) && issued == old(issued)
      ensures r.path != [] && r.verb == PATCH && r.contentType != "application/sdp" ==>
        c == Panics("Not implemented") && unchanged(old(pcs).Values)
      ensures r.path != [] && r.verb == PATCH && r.contentType == "application/sdp" && SessionId(r.path) !in old(pcs) ==>
        c == Returns(Response(404, map[], "")) && unchanged(old(pcs).Values)
      ensures r.path != [] && r.verb == PATCH && r.contentType == "application/sdp" && SessionId(r.path) in old(pcs) ==>
        var pc := old(pcs)[SessionId(r.path)];
        && c.Returns?
        && (r.body.None? ==> c.value.status == 400 && unchanged(old(pcs).Values))
        && (r.body.Some? && !renegotiated ==> c.value.status == 500 && unchanged(old(pcs).Values))
        && (r.body.Some? && renegotiated ==>
              c.value.status == 200 && pc.remote == old(pc.remote) + [r.body.value] && pc.closed == old(pc.closed)
              && unchanged(old(pcs).Values - {pc}))
      // DELETE: unknown ids get 404; a successful close unregisters exactly that id.
      ensures r.path != [] && r.verb == DELETE ==> builds == old(builds) && issued == old(issued)
      ensures r.path != [] && r.verb == DELETE && SessionId(r.path) !in old(pcs) ==>
        c == Returns(Response(404, map[], "")) && pcs == old(pcs) && unchanged(old(pcs).Values)
      ensures r.path != [] && r.verb == DELETE && SessionId(r.path) in old(pcs) && !closes ==>
        c == Returns(Response(500, map[], "")) && pcs == old(pcs) && unchanged(old(pcs).Values)
      ensures r.path != [] && r.verb == DELETE && SessionId(r.path) in old(pcs) && closes ==>
        var pc := old(pcs)[SessionId(r.path)];
        && c == Returns(Response(200, map[], ""))
        && pcs == old(pcs) - {SessionId(r.path)}
        && pc.closed && pc.remote == old(pc.remote)
        && unchanged(old(pcs).Values - {pc})
      // Any other method: an empty 200 and nothing changes.
      ensures r.path != [] && r.verb.OtherMethod? ==>
        && c == Returns(Response(200, map[], "")) && pcs == old(pcs) && builds == old(builds) && issued == old(issued)
        && unchanged(old(pcs).Values)
    {
      if r.path == [] {
        return Panics("slice bounds out of range [1:0]");
      }
      var id := SessionId(r.path);
      match r.verb
      case GET =>
        c := Returns(EmptyWriter.WriteHeader(405).Finish());
      case POST =>
        c := Post(r, neg, pcid);
      case PATCH =>
        if r.contentType != "application/sdp" {
          return Panics("Not implemented");
        }
        if id !in pcs {
          return Returns(EmptyWriter.WriteHeader(404).Finish());
        }
        var pc := pcs[id];
        if r.body.None? {
          return Returns(EmptyWriter.WriteHeader(400).Finish());
        }
        if !renegotiated {
          return Returns(EmptyWriter.WriteHeader(500).Finish());
        }
        pc.remote := pc.remote + [r.body.value];
        c := Returns(EmptyWriter.Finish());
      case DELETE =>
        if id !in pcs {
          return Returns(EmptyWriter.WriteHeader(404).Finish());
        }
        var pc := pcs[id];
        if !closes {
          return Returns(EmptyWriter.WriteHeader(500).Finish());
        }
        pc.closed := true;
        pcs := pcs - {id};
        c := Returns(EmptyWriter.Finish());
      case OtherMethod(_) =>
        c := Returns(EmptyWriter.Finish());
    }

    /** The POST branch of Handler. */
    method Post(r: Request, neg: Negotiation, pcid: string) returns (c: Call<Response>)
      requires Valid() && pcid !in issued
      requires neg.mediaCount.Some? ==> neg.mediaCount.value < 0x8000_0000
      modifies this
      ensures Valid()
      ensures streamed == old(streamed) && c.Returns?
      ensures PostSucceeds(r, neg) ==>
        && issued == old(issued) + {pcid}
        && pcid !in old(pcs) && pcid in pcs && fresh(pcs[pcid])
        && pcs == old(pcs)[pcid := pcs[pcid]]
        && builds == old(builds)[pcid := Build(pcs[pcid], neg.mediaCount.value)]
        && !pcs[pcid].closed && pcs[pcid].remote == [r.body.value]
        && c.value == Response(200, map["Content-Type" := "application/sdp", "Location" := Location(r.host, pcid)], neg.localSdp)
      ensures !PostSucceeds(r, neg) ==>
        && pcs == old(pcs) && builds == old(builds) && issued == old(issued)
        && c.value.status == PostFailureStatus(r, neg)
    {
      var w := EmptyWriter;
      if r.body.None? {
        return Returns(w.WriteHeader(400).Finish());
      }
      if !neg.peerConnection {
        return Returns(w.WriteHeader(500).Finish());
      }
      var pc := new PeerConnection();
      if !neg.remoteDescription {
        return Returns(w.WriteHeader(500).Finish());
      }
      pc.remote := [r.body.value];
      if !neg.answer || neg.mediaCount.None? {
        return Returns(w.WriteHeader(500).Finish());
      }
      var trackCount := neg.mediaCount.value;
      if !neg.localDescription {
        return Returns(w.WriteHeader(500).Finish());
      }
      w := w.SetHeader("Content-Type", "application/sdp").SetHeader("Location", Location(r.host, pcid));
      w := w.Write(neg.localSdp, neg.written);
      if !neg.written {
        w := w.WriteHeader(500);
        return Returns(w.Finish());
      }
      pcs := pcs[pcid := pc];
      builds := builds[pcid := Build(pc, trackCount)];
      issued := issued + {pcid};
      c := Returns(w.Finish());
    }

    /** The build goroutine of session pcid, run to where it stops. The i-th
        arriving track gets a demuxer built with setup answer setups(i); once
        trackCount demuxers exist the muxer is built, handed to the stream
        callback, and after it returns the connection is closed and the
        session unregistered. A build that fails only ends its goroutine. */
    method RunBuild(pcid: string, arrivals: seq<Track>, setups: nat -> DemuxSetup, engine: PkgMux.MuxEngine)
      returns (outcome: BuildOutcome)
      requires Valid() && pcid in builds
      requires forall i :: WellFormedSetup(setups(i))
      modifies this, builds[pcid].pc
      ensures Valid() && issued == old(issued)
      ensures var job := old(builds[pcid]);
        && (outcome.AwaitingTrack? ==>
              && |arrivals| < job.trackCount && outcome.received == |arrivals|
              && (forall j :: 0 <= j < |arrivals| ==> setups(j).SetupOk?)
              && pcs == old(pcs) && builds == old(builds) && streamed == old(streamed) && unchanged(job.pc))
        && (outcome.DemuxerFailed? ==>
              && outcome.track < job.trackCount && outcome.track < |arrivals|
              && setups(outcome.track) == SetupFailed(outcome.err)
              && (forall j :: 0 <= j < outcome.track ==> setups(j).SetupOk?)
              && pcs == old(pcs) && builds == old(builds) - {pcid} && streamed == old(streamed) && unchanged(job.pc))
        && (outcome.MuxerFailed? ==>
              && job.trackCount <= |arrivals|
              && (forall j :: 0 <= j < job.trackCount ==> setups(j).SetupOk?)
              && (!engine.contextAllocated || engine.mpegts.None? ||
                  exists j :: 0 <= j < job.trackCount && !engine.streamCreated(j))
              && pcs == old(pcs) && builds == old(builds) - {pcid} && streamed == old(streamed) && unchanged(job.pc))
        && (outcome.Streamed? ==>
              && job.trackCount <= |arrivals| && |outcome.demuxers| == job.trackCount
              && (forall j :: 0 <= j < job.trackCount ==>
                    && outcome.demuxers[j].rtpin == TrackReader(arrivals[j])
                    && setups(j).SetupOk? && outcome.demuxers[j].streams == setups(j).streams)
              && engine.contextAllocated && engine.mpegts.Some?
              && outcome.muxer.oformat == PkgMux.Configured(engine.mpegts.value)
              && PkgMux.StreamTableOf(outcome.muxer.streams, outcome.demuxers)
              && streamed == old(streamed) + [pcid]
              && job.pc.closed && job.pc.remote == old(job.pc.remote)
              && pcs == old(pcs) - {pcid} && builds == old(builds) - {pcid})
    {
      var job := builds[pcid];
      var demuxers, failed := StartDemuxers(arrivals, setups, job.trackCount);
      if failed.Some? {
        builds := builds - {pcid};
        return DemuxerFailed(|demuxers|, failed.value);
      }
      if |demuxers| < job.trackCount {
        return AwaitingTrack(|demuxers|);
      }
      var muxer, err := PkgMux.NewMpegtsMuxer(demuxers, engine);
      if muxer == null {
        builds := builds - {pcid};
        return MuxerFailed(err.value);
      }
      streamed := streamed + [pcid];
      job.pc.closed := true;
      pcs := pcs - {pcid};
      builds := builds - {pcid};
      outcome := Streamed(demuxers, muxer);
    }
  }

  /** The demuxer loop of the build goroutine: the i-th track to arrive gets
      a demuxer built with setups(i), until trackCount exist, a set-up fails
      (its error), or no further track has arrived. */
  method StartDemuxers(arrivals: seq<Track>, setups: nat -> DemuxSetup, trackCount: nat)
    returns (demuxers: seq<PkgDemux.RtpDemuxer>, failed: Option<GoError>)
    requires forall i :: WellFormedSetup(setups(i))
    ensures |demuxers| <= trackCount && |demuxers| <= |arrivals|
    ensures forall j :: 0 <= j < |demuxers| ==>
      && setups(j).SetupOk? && demuxers[j].rtpin == TrackReader(arrivals[j])
      && demuxers[j].streams == setups(j).streams && |demuxers[j].streams| >= 1
    ensures failed.Some? ==> |demuxers| < trackCount && |demuxers| < |arrivals| && setups(|demuxers|) == SetupFailed(failed.value)
    ensures failed.None? && |demuxers| < trackCount ==> |demuxers| == |arrivals|
  {
    demuxers := [];
    var i := 0;
    while i < trackCount
      invariant i <= trackCount && i <= |arrivals| && |demuxers| == i
      invariant forall j :: 0 <= j < i ==>
        && setups(j).SetupOk? && demuxers[j].rtpin == TrackReader(arrivals[j])
        && demuxers[j].streams == setups(j).streams && |demuxers[j].streams| >= 1
    {
      if i >= |arrivals| {
        return demuxers, None;
      }
      var d, err := PkgDemux.NewRtpDemuxer(TrackReader(arrivals[i]), setups(i));
      if d == null {
        return demuxers, err;
      }
      demuxers := demuxers + [d];
      i := i + 1;
    }
    return demuxers, None;
  }

  /** Terminating a session twice: whatever the first DELETE answers, the
      second one returns (it never panics), and once the first has removed
      the session the second answers 404 and changes nothing. */
  method DeleteTwice(s: Server, r: Request, closes: bool) returns (first: Call<Response>, second: Call<Response>)
    requires s.Valid() && r.verb == DELETE && |r.path| >= 1
    modifies s, s.pcs.Values
    ensures s.Valid() && first.Returns? && second.Returns?
    ensures first.value.status == 200 ==>
      second == Returns(Response(404, map[], "")) && SessionId(r.path) !in s.pcs
    ensures SessionId(r.path) !in old(s.pcs) ==>
      first == second == Returns(Response(404, map[], "")) && s.pcs == old(s.pcs)
  {
    var neg := Negotiation(false, false, false, None, false, "", false);
    first := s.Handler(r, neg, "", false, closes);
    assert s.pcs.Values <= old(s.pcs.Values);
    second := s.Handler(r, neg, "", false, closes);
  }
}
