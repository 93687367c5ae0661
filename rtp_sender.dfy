/** The sender side of an RTP media stream (rtpsender.go).

    An `RTPSender` owns an ordered list of track encodings (index 0 is the base
    encoding, the others are simulcast layers). Each encoding carries a track,
    the context the track was bound to, its primary SSRC and, optionally, an
    RTX companion stream (RFC 4588) and a FlexFEC companion stream. Two
    one-shot latches, `sent` and `stopped`, stand for the `sendCalled` and
    `stopCalled` channels: once closed they stay closed.

    Collaborators the sender calls but does not own are inputs here: the
    media-engine lookups and setting flags (`Api`), the tracks' Bind/Unbind
    (`TrackBehaviour`), random SSRCs and the random sender id, and the results
    of closing streams. */
module RtpSender {

  /** Go's PayloadType, a uint8. */
  type PayloadType = x: int | 0 <= x < 0x100

  /** An RTP synchronisation-source identifier (RFC 3550, section 3): 32 bits. */
  type SSRC = x: int | 0 <= x < 0x1_0000_0000

  datatype Option<T> = None | Some(value: T)

  datatype Result<T> = Ok(value: T) | Err(error: Error)

  datatype Error =
    | TrackNil                      // errRTPSenderTrackNil
    | DtlsTransportNil              // errRTPSenderDTLSTransportNil
    | RidNil                        // errRTPSenderRidNil
    | SenderStopped                 // errRTPSenderStopped
    | SendAlreadyCalled             // errRTPSenderSendAlreadyCalled
    | NoBaseEncoding                // errRTPSenderNoBaseEncoding
    | BaseEncodingMismatch          // errRTPSenderBaseEncodingMismatch
    | RidCollision                  // errRTPSenderRIDCollision
    | TrackRemoved                  // errRTPSenderTrackRemoved
    | NewTrackHasIncorrectKind      // ErrRTPSenderNewTrackHasIncorrectKind
    | NewTrackHasIncorrectEnvelope  // ErrRTPSenderNewTrackHasIncorrectEnvelope
    | ClosedPipe                    // io.ErrClosedPipe
    | NoProgress                    // io.ErrNoProgress
    | NoTrackForRid(rid: string)    // errRTPSenderNoTrackForRID, wrapped with the RID
    | RebindOfRemovedTrack          // ReplaceTrack calls Bind on a nil original track (a run-time panic in Go)
    | External(message: string)     // a collaborator's own error (id generation, Bind, Unbind, Close), passed through

  datatype CodecType = Audio | Video

  const MimeTypeOpus: string := "audio/opus"
  const MimeTypeRed: string := "audio/red"
  const MimeTypeFlexFEC03: string := "video/flexfec-03"

  datatype Codec = Codec(mimeType: string, payloadType: PayloadType)

  datatype RtpParameters = RtpParameters(headerExtensions: seq<string>, codecs: seq<Codec>)

  /** One entry of RTPSendParameters.Encodings: RID, SSRC, payload type, RTX SSRC, FEC SSRC. */
  datatype EncodingParameters = EncodingParameters(
    rid: string, ssrc: SSRC, payloadType: PayloadType, rtxSsrc: SSRC, fecSsrc: SSRC)

  datatype SendParameters = SendParameters(rtp: RtpParameters, encodings: seq<EncodingParameters>)

  datatype MatchType = MatchNone | MatchPartial | MatchExact

  datatype Association = Association(codec: Codec, matchType: MatchType)

  /** The media-engine lookups the sender uses; their code is not part of this model. */
  datatype MediaEngine = MediaEngine(
    codecsByKind: CodecType -> seq<Codec>,                    // getCodecsByKind
    rtpParametersByKind: CodecType -> RtpParameters,          // getRTPParametersByKind(kind, sendonly)
    associatedSearch: (Codec, seq<Codec>) -> Association,     // codecParametersAssociatedSearch
    searchByMimeType: (string, seq<Codec>) -> seq<Codec>)     // codecParametersSearchByMimeType

  /** The API object: its media engine and the two setting-engine flags read here. */
  datatype Api = Api(engine: MediaEngine, trackLocalRtx: bool, trackLocalFlexfec: bool)

  datatype DtlsTransport = DtlsTransport(handle: nat)

  /** The parts of a TrackLocal the sender reads. */
  datatype TrackLocal = TrackLocal(id: string, streamId: string, kind: CodecType, rid: string)

  /** baseTrackLocalContext: sender id, negotiated parameters and SSRC (its write
      stream and RTCP reader handles are not modelled). */
  datatype BindContext = BindContext(id: string, params: RtpParameters, ssrc: SSRC)

  datatype BindOutcome = Bound(codec: Codec) | BindFailed(error: Error)

  /** What the tracks do when bound or unbound. */
  datatype TrackBehaviour = TrackBehaviour(
    bind: (TrackLocal, BindContext) -> BindOutcome,
    unbind: (TrackLocal, BindContext) -> Option<Error>)

  /** interceptor.StreamInfo, with the attributes this file sets. */
  datatype StreamInfo = StreamInfo(
    id: string, ssrc: SSRC, payloadType: PayloadType, mimeType: string, headerExtensions: seq<string>,
    redPayloadType: Option<PayloadType>,   // "red_pt"
    flexfec: bool,                         // "flexfec-03"
    associatedSsrc: Option<SSRC>)          // "apt_ssrc"

  /** trackEncoding. The primary srtpWriterFuture is bound to `ssrc`. `rtx` is
      present once Send has created the RTX stream, its RTCP reader and its stream
      info (they are always set together), and likewise `fec`. */
  datatype Encoding = Encoding(
    track: Option<TrackLocal>,
    context: Option<BindContext>,
    ssrc: SSRC,
    info: Option<StreamInfo>,
    rtxSsrc: SSRC,
    rtx: Option<StreamInfo>,
    fecSsrc: SSRC,
    fec: Option<StreamInfo>)

  datatype StreamKind = Primary | Rtx | Fec

  /** A Close call on a stream of encoding `index`. */
  datatype CloseTarget = CloseTarget(index: nat, stream: StreamKind)

  /** A possible outcome of a blocking read: it is handed to the RTCP reader of
      stream `stream` of encoding `index`, or it fails. */
  datatype ReadResult = ReadFrom(index: nat, stream: StreamKind) | ReadFailed(error: Error)

  // ---------------------------------------------------------------------------
  // Queries on encoding lists

  /** The first index at which `failed` holds, or |failed| when none does. */
  function FirstFailure(failed: seq<bool>): (k: nat)
    ensures k <= |failed|
    ensures forall i :: 0 <= i < k ==> !failed[i]
    ensures k < |failed| ==> failed[k]
  {
    if |failed| == 0 || failed[0] then 0 else 1 + FirstFailure(failed[1..])
  }

  lemma FirstFailureAt(failed: seq<bool>, k: nat)
    requires k < |failed| && failed[k]
    requires forall i :: 0 <= i < k ==> !failed[i]
    ensures FirstFailure(failed) == k
  {
  }

  lemma FirstFailureNone(failed: seq<bool>)
    requires forall i :: 0 <= i < |failed| ==> !failed[i]
    ensures FirstFailure(failed) == |failed|
  {
  }

  predicate HasRid(e: Encoding, rid: string) {
    e.track.Some? && e.track.value.rid == rid
  }

  predicate RidTaken(encodings: seq<Encoding>, rid: string) {
    exists i :: 0 <= i < |encodings| && HasRid(encodings[i], rid)
  }

  /** The RID lookup of ReadSimulcast and SetReadDeadlineSimulcast: the first
      encoding whose track is present and carries `rid`. */
  function FirstWithRid(encodings: seq<Encoding>, rid: string): (r: Option<nat>)
    ensures r.Some? ==> r.value < |encodings| && HasRid(encodings[r.value], rid)
    ensures r.Some? ==> forall j :: 0 <= j < r.value ==> !HasRid(encodings[j], rid)
    ensures r.None? <==> !RidTaken(encodings, rid)
  {
    if |encodings| == 0 then None
    else if HasRid(encodings[0], rid) then Some(0)
    else
      match FirstWithRid(encodings[1..], rid)
      case None =>
        assert forall j :: 1 <= j < |encodings| ==> encodings[j] == encodings[1..][j - 1];
        None
      case Some(i) => Some(i + 1)
  }

  /** Every present track has media kind `kind`. */
  ghost predicate TracksOfKind(encodings: seq<Encoding>, kind: CodecType) {
    forall i :: 0 <= i < |encodings| && encodings[i].track.Some? ==> encodings[i].track.value.kind == kind
  }

  /** Every encoding has a bind context (the state after Send). */
  ghost predicate AllBound(encodings: seq<Encoding>) {
    forall i :: 0 <= i < |encodings| ==> encodings[i].context.Some?
  }

  /** The RIDs of the present tracks are pairwise distinct. */
  ghost predicate DistinctRids(encodings: seq<Encoding>) {
    forall i, j :: 0 <= i < j < |encodings| && encodings[i].track.Some? && encodings[j].track.Some? ==>
      encodings[i].track.value.rid != encodings[j].track.value.rid
  }

  /** While the base track is present, every track is, and a simulcast list
      (more than one encoding) shares the base's id and stream id and has
      non-empty RIDs. */
  ghost predicate SimulcastEnvelope(encodings: seq<Encoding>) {
    |encodings| > 0 && encodings[0].track.Some? ==>
      forall i :: 0 <= i < |encodings| ==>
        encodings[i].track.Some?
        && (|encodings| > 1 ==>
              encodings[i].track.value.rid != ""
              && encodings[i].track.value.id == encodings[0].track.value.id
              && encodings[i].track.value.streamId == encodings[0].track.value.streamId)
  }

  /** The track-level invariants depend on the tracks alone. */
  lemma SameTracksKeepInvariant(before: seq<Encoding>, after: seq<Encoding>, kind: CodecType)
    requires |before| == |after|
    requires forall i :: 0 <= i < |before| ==> after[i].track == before[i].track
    ensures TracksOfKind(before, kind) ==> TracksOfKind(after, kind)
    ensures DistinctRids(before) ==> DistinctRids(after)
    ensures SimulcastEnvelope(before) ==> SimulcastEnvelope(after)
  {
  }

  /** The checks AddEncoding makes before appending `t` to a non-empty list. */
  ghost predicate CanJoin(encodings: seq<Encoding>, t: TrackLocal)
    requires |encodings| > 0
  {
    var base := encodings[0].track;
    && base.Some? && base.value.rid != "" && t.rid != ""
    && t.id == base.value.id && t.streamId == base.value.streamId && t.kind == base.value.kind
    && !RidTaken(encodings, t.rid)
  }

  lemma RidLookupIsExact(encodings: seq<Encoding>, rid: string, i: nat)
    requires DistinctRids(encodings)
    requires i < |encodings| && HasRid(encodings[i], rid)
    ensures FirstWithRid(encodings, rid) == Some(i)
  {
    assert RidTaken(encodings, rid);
  }

  lemma AppendKeepsRidsDistinct(encodings: seq<Encoding>, e: Encoding)
    requires DistinctRids(encodings)
    requires e.track.Some? && !RidTaken(encodings, e.track.value.rid)
    ensures DistinctRids(encodings + [e])
  {
    var s := encodings + [e];
    forall i, j | 0 <= i < j < |s| && s[i].track.Some? && s[j].track.Some?
      ensures s[i].track.value.rid != s[j].track.value.rid
    {
      if j == |encodings| {
        assert s[i] == encodings[i];
        assert !HasRid(encodings[i], e.track.value.rid);
      } else {
        assert s[i] == encodings[i] && s[j] == encodings[j];
      }
    }
  }

  /** Whether some codec has an associated (RTX) codec: the search of addEncoding. */
  ghost predicate HasAssociatedCodec(engine: MediaEngine, codecs: seq<Codec>) {
    exists c :: c in codecs && engine.associatedSearch(c, codecs).matchType != MatchNone
  }

  /** The encoding addEncoding creates for `track`; `ssrc`, `rtxSsrc` and
      `fecSsrc` are the values the random generator would produce. */
  ghost function NewEncoding(track: TrackLocal, api: Api, ssrc: SSRC, rtxSsrc: SSRC, fecSsrc: SSRC): (e: Encoding)
    ensures e.track == Some(track) && e.ssrc == ssrc
    ensures e.context.None? && e.info.None? && e.rtx.None? && e.fec.None?
    ensures e.rtxSsrc != 0 ==> api.trackLocalRtx && HasAssociatedCodec(api.engine, api.engine.codecsByKind(track.kind))
    ensures e.fecSsrc != 0 ==>
      api.trackLocalFlexfec && |api.engine.searchByMimeType(MimeTypeFlexFEC03, api.engine.codecsByKind(track.kind))| > 0
  {
    var codecs := api.engine.codecsByKind(track.kind);
    Encoding(
      Some(track), None, ssrc, None,
      if api.trackLocalRtx && HasAssociatedCodec(api.engine, codecs) then rtxSsrc else 0, None,
      if api.trackLocalFlexfec && |api.engine.searchByMimeType(MimeTypeFlexFEC03, codecs)| > 0 then fecSsrc else 0, None)
  }

  /** What GetParameters reports for one encoding. */
  function ReportedEncoding(e: Encoding, payloadType: PayloadType): EncodingParameters {
    EncodingParameters(if e.track.Some? then e.track.value.rid else "", e.ssrc, payloadType, e.rtxSsrc, e.fecSsrc)
  }

  function UnbindError(e: Encoding, tracks: TrackBehaviour): Option<Error> {
    if e.track.Some? && e.context.Some? then tracks.unbind(e.track.value, e.context.value) else None
  }

  /** Position by position: would unbinding this encoding's track fail? */
  function UnbindFailures(encodings: seq<Encoding>, tracks: TrackBehaviour): (f: seq<bool>)
    ensures |f| == |encodings|
    ensures forall i :: 0 <= i < |encodings| ==> (f[i] <==> UnbindError(encodings[i], tracks).Some?)
  {
    seq(|encodings|, i requires 0 <= i < |encodings| => UnbindError(encodings[i], tracks).Some?)
  }

  // ---------------------------------------------------------------------------
  // Stop's close sequence

  /** The Close calls Stop makes for encoding `i`: the primary stream twice,
      then the RTX and FEC streams when they exist. */
  function TargetsOf(i: nat, e: Encoding): seq<CloseTarget> {
    [CloseTarget(i, Primary), CloseTarget(i, Primary)]
    + (if e.rtx.Some? then [CloseTarget(i, Rtx)] else [])
    + (if e.fec.Some? then [CloseTarget(i, Fec)] else [])
  }

  function CloseTargets(encodings: seq<Encoding>): seq<CloseTarget> {
    if |encodings| == 0 then []
    else CloseTargets(encodings[..|encodings| - 1]) + TargetsOf(|encodings| - 1, encodings[|encodings| - 1])
  }

  /** How many Close calls stream `stream` of an existing encoding should get:
      two for the primary stream, one for the RTX or FEC stream when present. */
  function StreamCloses(e: Encoding, stream: StreamKind): nat {
    match stream
    case Primary => 2
    case Rtx => if e.rtx.Some? then 1 else 0
    case Fec => if e.fec.Some? then 1 else 0
  }

  /** How many Close calls target `t` should get: none beyond the list. */
  function CloseCount(encodings: seq<Encoding>, t: CloseTarget): nat {
    if t.index < |encodings| then StreamCloses(encodings[t.index], t.stream) else 0
  }

  lemma MultisetOfConcat(a: seq<CloseTarget>, b: seq<CloseTarget>, t: CloseTarget)
    ensures multiset(a + b)[t] == multiset(a)[t] + multiset(b)[t]
  {
    assert multiset(a + b) == multiset(a) + multiset(b);
  }

  lemma TargetsOfCount(i: nat, e: Encoding, t: CloseTarget)
    ensures multiset(TargetsOf(i, e))[t] == if t.index == i then StreamCloses(e, t.stream) else 0
  {
    var p := [CloseTarget(i, Primary), CloseTarget(i, Primary)];
    var r: seq<CloseTarget> := if e.rtx.Some? then [CloseTarget(i, Rtx)] else [];
    var f: seq<CloseTarget> := if e.fec.Some? then [CloseTarget(i, Fec)] else [];
    assert TargetsOf(i, e) == (p + r) + f;
    if t.index != i {
      assert t !in TargetsOf(i, e);
    } else {
      MultisetOfConcat(p + r, f, t);
      MultisetOfConcat(p, r, t);
      match t.stream
      case Primary =>
        assert t !in r && t !in f;
      case Rtx =>
        assert t !in p && t !in f;
      case Fec =>
        assert t !in p && t !in r;
    }
  }

  /** Every stream an encoding owns gets its close attempts, and nothing else
      does: RTX and FEC once each when present, the primary stream exactly
      twice. */
  lemma {:induction false} CloseTargetsCount(encodings: seq<Encoding>, t: CloseTarget)
    ensures multiset(CloseTargets(encodings))[t] == CloseCount(encodings, t)
  {
    if |encodings| > 0 {
      var last := |encodings| - 1;
      var prefix := encodings[..last];
      var a := CloseTargets(prefix);
      var b := TargetsOf(last, encodings[last]);
      assert CloseTargets(encodings) == a + b;
      MultisetOfConcat(a, b, t);
      CloseTargetsCount(prefix, t);
      TargetsOfCount(last, encodings[last], t);
      if t.index < last {
        assert encodings[t.index] == prefix[t.index];
      }
    }
  }

  // ---------------------------------------------------------------------------
  // The sender

  class RTPSender {
    var encodings: seq<Encoding>
    const transport: DtlsTransport
    var payloadType: PayloadType
    const kind: CodecType
    const id: string
    const api: Api      // the API the sender was created from
    var sent: bool      // sendCalled has been closed
    var stopped: bool   // stopCalled has been closed

    /** The invariant every operation keeps, apart from non-emptiness. */
    ghost predicate Consistent()
      reads this
    {
      && TracksOfKind(encodings, kind)
      && DistinctRids(encodings)
      && SimulcastEnvelope(encodings)
      && (sent ==> AllBound(encodings))
    }

    ghost predicate Valid()
      reads this
    {
      |encodings| > 0 && Consistent()
    }

    /** The sender NewRTPSender builds, with its first encoding added. */
    constructor (id: string, track: TrackLocal, transport: DtlsTransport, api: Api, ssrc: SSRC, rtxSsrc: SSRC, fecSsrc: SSRC)
      ensures Valid()
      ensures this.id == id && kind == track.kind && this.transport == transport && this.api == api && payloadType == 0
      ensures !sent && !stopped
      ensures encodings == [NewEncoding(track, api, ssrc, rtxSsrc, fecSsrc)]
    {
      this.id := id;
      this.kind := track.kind;
      this.transport := transport;
      this.api := api;
      payloadType := 0;
      encodings := [];
      sent := false;
      stopped := false;
      new;
      AppendEncoding(track, ssrc, rtxSsrc, fecSsrc);
    }

    /** addEncoding: pre-allocate the SSRCs of a new encoding and append it. */
    method AppendEncoding(track: TrackLocal, ssrc: SSRC, rtxSsrc: SSRC, fecSsrc: SSRC)
      requires Consistent() && !sent
      requires track.kind == kind
      requires |encodings| == 0 || CanJoin(encodings, track)
      modifies this
      ensures Valid()
      ensures encodings == old(encodings) + [NewEncoding(track, api, ssrc, rtxSsrc, fecSsrc)]
      ensures sent == old(sent) && stopped == old(stopped) && payloadType == old(payloadType)
    {
      var codecs := api.engine.codecsByKind(track.kind);
      var rtx: SSRC := 0;
      if api.trackLocalRtx {
        var found := false;
        var i := 0;
        while i < |codecs|
          invariant 0 <= i <= |codecs|
          invariant forall j :: 0 <= j < i ==> api.engine.associatedSearch(codecs[j], codecs).matchType == MatchNone
        {
          if api.engine.associatedSearch(codecs[i], codecs).matchType != MatchNone {
            found := true;
            break;
          }
          i := i + 1;
        }
        assert found <==> HasAssociatedCodec(api.engine, codecs);
        if found {
          rtx := rtxSsrc;
        }
      }
      var fec: SSRC := 0;
      if api.trackLocalFlexfec && |api.engine.searchByMimeType(MimeTypeFlexFEC03, codecs)| > 0 {
        fec := fecSsrc;
      }
      var e := Encoding(Some(track), None, ssrc, None, rtx, None, fec, None);
      assert e == NewEncoding(track, api, ssrc, rtxSsrc, fecSsrc);
      if |encodings| > 0 {
        AppendKeepsRidsDistinct(encodings, e);
      }
      encodings := encodings + [e];
    }

    /** Track: the base encoding's track, or none when the list is empty. */
    function Track(): (t: Option<TrackLocal>)
      reads this
      ensures |encodings| == 0 ==> t.None?
      ensures |encodings| > 0 ==> t == encodings[0].track
    {
      if |encodings| == 0 then None else encodings[0].track
    }

    /** getParameters: one entry per encoding, in order, plus the codec list of
        the owning transceiver when there is one (`transceiverCodecs`), else
        the media engine's for the sender's kind. */
    function GetParameters(transceiverCodecs: Option<seq<Codec>>): (p: SendParameters)
      reads this
      ensures |p.encodings| == |encodings|
      ensures forall i :: 0 <= i < |encodings| ==>
        && p.encodings[i].ssrc == encodings[i].ssrc
        && p.encodings[i].rtxSsrc == encodings[i].rtxSsrc
        && p.encodings[i].fecSsrc == encodings[i].fecSsrc
        && p.encodings[i].payloadType == payloadType
        && (encodings[i].track.Some? ==> p.encodings[i].rid == encodings[i].track.value.rid)
        && (encodings[i].track.None? ==> p.encodings[i].rid == "")
      ensures p.rtp.headerExtensions == api.engine.rtpParametersByKind(kind).headerExtensions
      ensures transceiverCodecs.Some? ==> p.rtp.codecs == transceiverCodecs.value
      ensures transceiverCodecs.None? ==> p.rtp.codecs == api.engine.codecsByKind(kind)
    {
      var encs := encodings;
      var pt := payloadType;
      var reported := seq(|encs|, i requires 0 <= i < |encs| => ReportedEncoding(encs[i], pt));
      var base := api.engine.rtpParametersByKind(kind);
      var codecs := if transceiverCodecs.Some? then transceiverCodecs.value else api.engine.codecsByKind(kind);
      SendParameters(base.(codecs := codecs), reported)
    }

    /** AddEncoding: add a simulcast layer. The checks run in a fixed order and
        a failed check leaves the encoding list as it was. */
    method AddEncoding(track: Option<TrackLocal>, ssrc: SSRC, rtxSsrc: SSRC, fecSsrc: SSRC)
      returns (err: Option<Error>)
      requires Valid()
      modifies this
      ensures Valid()
      ensures sent == old(sent) && stopped == old(stopped) && payloadType == old(payloadType)
      ensures track.None? ==> err == Some(TrackNil)
      ensures track.Some? ==>
        var t := track.value;
        var base := old(encodings)[0].track;
        if t.rid == "" then err == Some(RidNil)
        else if old(stopped) then err == Some(SenderStopped)
        else if old(sent) then err == Some(SendAlreadyCalled)
        else if base.None? || base.value.rid == "" then err == Some(NoBaseEncoding)
        else if base.value.id != t.id || base.value.streamId != t.streamId || base.value.kind != t.kind
        then err == Some(BaseEncodingMismatch)
        else if RidTaken(old(encodings), t.rid) then err == Some(RidCollision)
        else err.None?
      ensures err.Some? ==> encodings == old(encodings)
      ensures err.None? ==>
        && |encodings| == |old(encodings)| + 1
        && encodings[..|old(encodings)|] == old(encodings)
        && encodings[|old(encodings)|].track == track
        && encodings == old(encodings) + [NewEncoding(track.value, api, ssrc, rtxSsrc, fecSsrc)]
    {
      if track.None? {
        return Some(TrackNil);
      }
      var t := track.value;
      if t.rid == "" {
        return Some(RidNil);
      }
      if stopped {
        return Some(SenderStopped);
      }
      if sent {
        return Some(SendAlreadyCalled);
      }
      var refTrack: Option<TrackLocal> := None;
      if |encodings| != 0 {
        refTrack := encodings[0].track;
      }
      if refTrack.None? || refTrack.value.rid == "" {
        return Some(NoBaseEncoding);
      }
      if refTrack.value.id != t.id || refTrack.value.streamId != t.streamId || refTrack.value.kind != t.kind {
        return Some(BaseEncodingMismatch);
      }
      var i := 0;
      while i < |encodings|
        invariant 0 <= i <= |encodings|
        invariant forall j :: 0 <= j < i ==> !HasRid(encodings[j], t.rid)
      {
        if encodings[i].track.Some? && encodings[i].track.value.rid == t.rid {
          return Some(RidCollision);
        }
        i := i + 1;
      }
      AppendEncoding(t, ssrc, rtxSsrc, fecSsrc);
      err := None;
    }

    /** The context Send binds an encoding's track to. */
    function SendContext(e: Encoding, p: EncodingParameters): BindContext
      requires e.track.Some?
    {
      BindContext(id, api.engine.rtpParametersByKind(e.track.value.kind), p.ssrc)
    }

    /** An encoding after Send's first step: new SSRC (and primary stream) and a
        fresh context. A bind failure leaves the encoding in this state. */
    function Prepare(e: Encoding, p: EncodingParameters): Encoding
      requires e.track.Some?
    {
      e.(ssrc := p.ssrc, context := Some(SendContext(e, p)))
    }

    /** Whether Send creates the RTX stream: an exact associated-codec match and
        a non-zero RTX SSRC. */
    predicate RtxNegotiated(p: EncodingParameters, codec: Codec) {
      api.engine.associatedSearch(codec, api.engine.codecsByKind(kind)).matchType == MatchExact && p.rtxSsrc != 0
    }

    /** Whether Send creates the FEC stream: a FlexFEC codec exists and the FEC
        SSRC is non-zero. */
    predicate FecNegotiated(p: EncodingParameters) {
      |api.engine.searchByMimeType(MimeTypeFlexFEC03, api.engine.codecsByKind(kind))| > 0 && p.fecSsrc != 0
    }

    /** An encoding after its track's Bind returned `codec`: the context records
        the codec, the stream info is built, and the RTX and FEC streams are
        created when negotiated, each tagged with the primary SSRC. */
    function Activate(e: Encoding, p: EncodingParameters, codec: Codec, headerExtensions: seq<string>): (r: Encoding)
      requires e.context.Some?
      ensures r.track == e.track && r.ssrc == e.ssrc
      ensures r.context == Some(e.context.value.(params := e.context.value.params.(codecs := [codec])))
      ensures r.info.Some? && r.info.value.ssrc == p.ssrc && r.info.value.payloadType == codec.payloadType
      ensures r.info.value.associatedSsrc.None?
      ensures r.info.value.flexfec <==> |api.engine.searchByMimeType(MimeTypeFlexFEC03, api.engine.codecsByKind(kind))| > 0
      ensures r.info.value.redPayloadType.Some? <==>
        var codecs := api.engine.codecsByKind(kind);
        codec.mimeType == MimeTypeOpus && |codecs| > 0 && codecs[0].mimeType == MimeTypeRed
      ensures RtxNegotiated(p, codec) ==>
        && r.rtxSsrc == p.rtxSsrc && r.rtx.Some?
        && r.rtx.value.ssrc == p.rtxSsrc && r.rtx.value.associatedSsrc == Some(p.ssrc)
      ensures !RtxNegotiated(p, codec) ==> r.rtxSsrc == e.rtxSsrc && r.rtx == e.rtx
      ensures FecNegotiated(p) ==>
        && r.fecSsrc == p.fecSsrc && r.fec.Some?
        && r.fec.value.ssrc == p.fecSsrc && r.fec.value.associatedSsrc == Some(p.ssrc)
      ensures !FecNegotiated(p) ==> r.fecSsrc == e.fecSsrc && r.fec == e.fec
    {
      var codecs := api.engine.codecsByKind(kind);
      var fecCodecs := api.engine.searchByMimeType(MimeTypeFlexFEC03, codecs);
      var ctx := e.context.value;
      var red := if codec.mimeType == MimeTypeOpus && |codecs| > 0 && codecs[0].mimeType == MimeTypeRed
                 then Some(codecs[0].payloadType) else None;
      var info := StreamInfo(id, p.ssrc, codec.payloadType, codec.mimeType, headerExtensions, red, |fecCodecs| > 0, None);
      var rtxCodec := api.engine.associatedSearch(codec, codecs).codec;
      var withRtx :=
        if RtxNegotiated(p, codec) then
          e.(rtxSsrc := p.rtxSsrc,
             rtx := Some(StreamInfo(id + "_rtx", p.rtxSsrc, rtxCodec.payloadType, rtxCodec.mimeType,
                                    headerExtensions, None, false, Some(p.ssrc))))
        else e;
      var withFec :=
        if FecNegotiated(p) then
          withRtx.(fecSsrc := p.fecSsrc,
                   fec := Some(StreamInfo(id + "_fec", p.fecSsrc, fecCodecs[0].payloadType, fecCodecs[0].mimeType,
                                          headerExtensions, None, false, Some(p.ssrc))))
        else withRtx;
      withFec.(context := Some(ctx.(params := ctx.params.(codecs := [codec]))), info := Some(info))
    }

    ghost function BindOutcomeOf(e: Encoding, p: EncodingParameters, tracks: TrackBehaviour): BindOutcome
      requires e.track.Some?
    {
      tracks.bind(e.track.value, SendContext(e, p))
    }

    /** What Send does to one encoding: prepare it, bind its track, and
        activate it when the bind succeeds. */
    ghost function SendEncoding(e: Encoding, p: EncodingParameters, tracks: TrackBehaviour,
                                headerExtensions: seq<string>): (r: Encoding)
      requires e.track.Some?
      ensures r.track == e.track && r.ssrc == p.ssrc && r.context.Some?
    {
      match BindOutcomeOf(e, p, tracks)
      case Bound(codec) => Activate(Prepare(e, p), p, codec, headerExtensions)
      case BindFailed(_) => Prepare(e, p)
    }

    /** Position by position: would binding this encoding's track fail? */
    ghost function BindFailures(encs: seq<Encoding>, parameters: SendParameters, tracks: TrackBehaviour): (f: seq<bool>)
      requires |parameters.encodings| >= |encs|
      requires forall i :: 0 <= i < |encs| ==> encs[i].track.Some?
      ensures |f| == |encs|
      ensures forall i :: 0 <= i < |encs| ==> (f[i] <==> BindOutcomeOf(encs[i], parameters.encodings[i], tracks).BindFailed?)
    {
      seq(|encs|, i requires 0 <= i < |encs| => BindOutcomeOf(encs[i], parameters.encodings[i], tracks).BindFailed?)
    }

    /** What Send's loop does from index `idx` on: bind each remaining
        encoding in order, activating it, until a bind fails; the failing
        encoding keeps its new SSRC and context. */
    ghost function SendFrom(encs: seq<Encoding>, idx: nat, parameters: SendParameters, tracks: TrackBehaviour)
      : (r: (seq<Encoding>, Option<Error>))
      requires idx <= |encs| <= |parameters.encodings|
      requires forall i :: 0 <= i < |encs| ==> encs[i].track.Some?
      ensures |r.0| == |encs|
      ensures forall i :: 0 <= i < |encs| ==> r.0[i].track == encs[i].track
      decreases |encs| - idx
    {
      if idx == |encs| then (encs, None)
      else
        var e := encs[idx];
        var p := parameters.encodings[idx];
        var next := encs[idx := SendEncoding(e, p, tracks, parameters.rtp.headerExtensions)];
        match BindOutcomeOf(e, p, tracks)
        case BindFailed(error) => (next, Some(error))
        case Bound(_) => SendFrom(next, idx + 1, parameters, tracks)
    }

    /** The loop stops at the first bind failure k: encodings from `idx` up to
        and including k are sent, the others are untouched, and the error is
        that of encoding k (none when every bind succeeded, k = |encs|). */
    lemma {:induction false} SendFromStopsAtFirstFailure(encs: seq<Encoding>, idx: nat, parameters: SendParameters,
                                                         tracks: TrackBehaviour, failed: seq<bool>, k: nat)
      requires idx <= |encs| <= |parameters.encodings|
      requires forall i :: 0 <= i < |encs| ==> encs[i].track.Some?
      requires |failed| == |encs|
      requires forall i :: 0 <= i < |encs| ==>
        (failed[i] <==> BindOutcomeOf(encs[i], parameters.encodings[i], tracks).BindFailed?)
      requires idx <= k <= |encs|
      requires forall i :: 0 <= i < k ==> !failed[i]
      requires k < |encs| ==> failed[k]
      ensures var r := SendFrom(encs, idx, parameters, tracks);
        && (forall i :: 0 <= i < idx ==> r.0[i] == encs[i])
        && (forall i :: idx <= i < |encs| && i <= k ==>
              r.0[i] == SendEncoding(encs[i], parameters.encodings[i], tracks, parameters.rtp.headerExtensions))
        && (forall i :: k < i < |encs| ==> r.0[i] == encs[i])
        && (k < |encs| ==> r.1 == Some(BindOutcomeOf(encs[k], parameters.encodings[k], tracks).error))
        && (k == |encs| ==> r.1.None?)
      decreases |encs| - idx
    {
      if idx < |encs| && !failed[idx] {
        var p := parameters.encodings[idx];
        var next := encs[idx := SendEncoding(encs[idx], p, tracks, parameters.rtp.headerExtensions)];
        assert BindOutcomeOf(next[idx], p, tracks) == BindOutcomeOf(encs[idx], p, tracks);
        assert SendFrom(encs, idx, parameters, tracks) == SendFrom(next, idx + 1, parameters, tracks);
        SendFromStopsAtFirstFailure(next, idx + 1, parameters, tracks, failed, k);
      }
    }

    /** Send: bind every encoding's track with the SSRCs of `parameters`, in
        order, then close the `sent` latch. A bind failure at index k returns
        that error at once: encodings before k stay bound and activated,
        encoding k keeps its new SSRC and context, and `sent` stays open.
        `stopped` is not consulted. */
    method Send(parameters: SendParameters, tracks: TrackBehaviour) returns (err: Option<Error>)
      requires Valid()
      requires !sent && encodings[0].track.Some? ==> |parameters.encodings| >= |encodings|
      modifies this
      ensures Valid()
      ensures stopped == old(stopped) && payloadType == old(payloadType)
      ensures old(sent) ==> err == Some(SendAlreadyCalled) && encodings == old(encodings) && sent
      ensures !old(sent) && old(encodings)[0].track.None? ==>
        err == Some(TrackRemoved) && encodings == old(encodings) && !sent
      ensures !old(sent) && old(encodings)[0].track.Some? ==>
        var n := |old(encodings)|;
        var k := FirstFailure(BindFailures(old(encodings), parameters, tracks));
        && |encodings| == n
        && (forall i :: 0 <= i < n && i <= k ==>
              encodings[i] == SendEncoding(old(encodings)[i], parameters.encodings[i], tracks, parameters.rtp.headerExtensions))
        && (forall i :: k < i < n ==> encodings[i] == old(encodings)[i])
        && (k < n ==> !sent && err == Some(BindOutcomeOf(old(encodings)[k], parameters.encodings[k], tracks).error))
        && (k == n ==> sent && err.None?)
    {
      if sent {
        return Some(SendAlreadyCalled);
      }
      if encodings[0].track.None? {
        return Some(TrackRemoved);
      }
      ghost var before := encodings;
      err := BindEncodings(parameters, tracks);
      ghost var failed := BindFailures(before, parameters, tracks);
      SendFromStopsAtFirstFailure(before, 0, parameters, tracks, failed, FirstFailure(failed));
      if err.None? {
        sent := true;
      }
    }

    /** The loop of Send. */
    method BindEncodings(parameters: SendParameters, tracks: TrackBehaviour) returns (err: Option<Error>)
      requires Valid() && !sent && encodings[0].track.Some?
      requires |parameters.encodings| >= |encodings|
      modifies this
      ensures Valid()
      ensures sent == old(sent) && stopped == old(stopped) && payloadType == old(payloadType)
      ensures (encodings, err) == SendFrom(old(encodings), 0, parameters, tracks)
      ensures err.None? ==> AllBound(encodings)
    {
      ghost var before := encodings;
      var idx := 0;
      while idx < |encodings|
        invariant 0 <= idx <= |encodings| == |before|
        invariant !sent && stopped == old(stopped) && payloadType == old(payloadType)
        invariant forall i :: 0 <= i < |encodings| ==> encodings[i].track == before[i].track
        invariant forall i :: 0 <= i < idx ==> encodings[i].context.Some?
        invariant SendFrom(encodings, idx, parameters, tracks) == SendFrom(before, 0, parameters, tracks)
      {
        var outcome := SendEncodingAt(idx, parameters.encodings[idx], tracks, parameters.rtp.headerExtensions);
        if outcome.BindFailed? {
          SameTracksKeepInvariant(before, encodings, kind);
          return Some(outcome.error);
        }
        idx := idx + 1;
      }
      SameTracksKeepInvariant(before, encodings, kind);
      err := None;
    }

    /** One turn of Send's loop: give encoding `idx` its new SSRC and context,
        bind its track, and activate the encoding when the bind succeeds. */
    method SendEncodingAt(idx: nat, p: EncodingParameters, tracks: TrackBehaviour, headerExtensions: seq<string>)
      returns (outcome: BindOutcome)
      requires idx < |encodings| && encodings[idx].track.Some?
      modifies this
      ensures outcome == BindOutcomeOf(old(encodings)[idx], p, tracks)
      ensures encodings == old(encodings)[idx := SendEncoding(old(encodings)[idx], p, tracks, headerExtensions)]
      ensures sent == old(sent) && stopped == old(stopped) && payloadType == old(payloadType)
    {
      var prepared := Prepare(encodings[idx], p);
      encodings := encodings[idx := prepared];
      outcome := tracks.bind(prepared.track.value, prepared.context.value);
      if outcome.Bound? {
        encodings := encodings[idx := Activate(prepared, p, outcome.codec, headerExtensions)];
      }
    }

    /** ReplaceTrack: swap the track of every encoding. Before Send, or when
        removing the track, that is all (after Send each present track is first
        unbound, stopping at the first failure). After Send, a new track is bound
        to a context that reuses the old id and SSRC; if that fails the original
        track is bound again and the original error returned. */
    method ReplaceTrack(track: Option<TrackLocal>, tracks: TrackBehaviour) returns (err: Option<Error>)
      requires Valid()
      modifies this
      ensures Valid()
      ensures sent == old(sent) && stopped == old(stopped) && payloadType == old(payloadType)
      ensures track.Some? && track.value.kind != kind ==>
        err == Some(NewTrackHasIncorrectKind) && encodings == old(encodings)
      ensures track.Some? && track.value.kind == kind && |old(encodings)| > 1 ==>
        err == Some(NewTrackHasIncorrectEnvelope) && encodings == old(encodings)
      ensures !old(sent) && (track.None? || (track.value.kind == kind && |old(encodings)| == 1)) ==>
        && err.None?
        && |encodings| == |old(encodings)|
        && forall i :: 0 <= i < |encodings| ==> encodings[i] == old(encodings)[i].(track := track)
      ensures old(sent) && track.None? ==>
        var k := FirstFailure(UnbindFailures(old(encodings), tracks));
        && |encodings| == |old(encodings)|
        && (forall i :: 0 <= i < k ==> encodings[i] == old(encodings)[i].(track := None))
        && (forall i :: k <= i < |encodings| ==> encodings[i] == old(encodings)[i])
        && (k < |encodings| ==> err == UnbindError(old(encodings)[k], tracks))
        && (k == |encodings| ==> err.None?)
      ensures old(sent) && track.Some? && track.value.kind == kind && |old(encodings)| == 1 ==>
        var e := old(encodings)[0];
        var ctx := e.context.value;
        var rebound := BindContext(ctx.id, api.engine.rtpParametersByKind(track.value.kind), ctx.ssrc);
        if UnbindError(e, tracks).Some? then
          err == UnbindError(e, tracks) && encodings == old(encodings)
        else
          match tracks.bind(track.value, rebound)
          case BindFailed(bindErr) =>
            && encodings == old(encodings)
            && err == (if e.track.None? then Some(RebindOfRemovedTrack)
                       else match tracks.bind(e.track.value, ctx)
                            case BindFailed(rebindErr) => Some(rebindErr)
                            case Bound(_) => Some(bindErr))
          case Bound(codec) =>
            && err.None?
            && encodings == [e.(track := track,
                                context := if codec.payloadType != old(payloadType)
                                           then Some(ctx.(params := ctx.params.(codecs := [codec])))
                                           else e.context)]
    {
      if track.Some? && kind != track.value.kind {
        return Some(NewTrackHasIncorrectKind);
      }
      if track.Some? && |encodings| > 1 {
        return Some(NewTrackHasIncorrectEnvelope);
      }
      var replaced, context;
      err, replaced, context := SwapTracks(track, tracks);
      if err.Some? || !sent || track.None? {
        return err;
      }
      // Here the sender has sent and there is exactly one encoding.
      var ctx := context.value;
      var outcome := tracks.bind(track.value, BindContext(ctx.id, api.engine.rtpParametersByKind(track.value.kind), ctx.ssrc));
      if outcome.BindFailed? {
        if replaced.None? {
          return Some(RebindOfRemovedTrack);
        }
        var rebind := tracks.bind(replaced.value, ctx);
        if rebind.BindFailed? {
          return Some(rebind.error);
        }
        return Some(outcome.error);
      }
      if payloadType != outcome.codec.payloadType {
        encodings := encodings[0 := encodings[0].(context := Some(ctx.(params := ctx.params.(codecs := [outcome.codec]))))];
      }
      encodings := encodings[0 := encodings[0].(track := track)];
      err := None;
    }

    /** The loop of ReplaceTrack. After Send each present track is unbound,
        stopping at the first failure; before Send, or when the track is being
        removed, each encoding also gets the new track. It reports the last
        encoding's track and context. */
    method SwapTracks(track: Option<TrackLocal>, tracks: TrackBehaviour)
      returns (err: Option<Error>, replaced: Option<TrackLocal>, context: Option<BindContext>)
      requires Valid()
      requires track.Some? ==> track.value.kind == kind && |encodings| == 1
      modifies this
      ensures Valid()
      ensures sent == old(sent) && stopped == old(stopped) && payloadType == old(payloadType)
      ensures var n := |old(encodings)|;
        var k := if sent then FirstFailure(UnbindFailures(old(encodings), tracks)) else n;
        && |encodings| == n
        && (forall i :: 0 <= i < k ==>
              encodings[i] == if !sent || track.None? then old(encodings)[i].(track := track) else old(encodings)[i])
        && (forall i :: k <= i < n ==> encodings[i] == old(encodings)[i])
        && (k < n ==> err == UnbindError(old(encodings)[k], tracks))
        && (k == n ==> err.None? && replaced == old(encodings)[n - 1].track && context == old(encodings)[n - 1].context)
    {
      ghost var before := encodings;
      var swap := !sent || track.None?;
      var n := |encodings|;
      replaced, context := None, None;
      var i := 0;
      while i < n
        invariant 0 <= i <= n == |encodings| == |before|
        invariant sent == old(sent) && stopped == old(stopped) && payloadType == old(payloadType)
        invariant sent ==> forall j :: 0 <= j < i ==> UnbindError(before[j], tracks).None?
        invariant forall j :: 0 <= j < i ==> encodings[j] == if swap then before[j].(track := track) else before[j]
        invariant forall j :: i <= j < n ==> encodings[j] == before[j]
        invariant i > 0 ==> replaced == before[i - 1].track && context == before[i - 1].context
      {
        replaced := encodings[i].track;
        context := encodings[i].context;
        if sent && replaced.Some? {
          var unbindErr := tracks.unbind(replaced.value, context.value);
          if unbindErr.Some? {
            FirstFailureAt(UnbindFailures(before, tracks), i);
            return unbindErr, replaced, context;
          }
        }
        if swap {
          encodings := encodings[i := encodings[i].(track := track)];
        }
        i := i + 1;
      }
      if sent {
        FirstFailureNone(UnbindFailures(before, tracks));
      }
      err := None;
    }

    /** Stop: close the `stopped` latch once. A repeated call changes nothing.
        Before Send nothing else happens; after Send the tracks are removed
        (ReplaceTrack with no track) and then every stream is closed, the
        primary one twice, collecting every result. `closeResult(j)` is the
        result of the j-th Close call. */
    method Stop(tracks: TrackBehaviour, closeResult: nat -> Option<Error>)
      returns (err: Option<Error>, closed: seq<CloseTarget>, closeErrs: seq<Option<Error>>)
      requires Valid()
      modifies this
      ensures Valid()
      ensures old(stopped) ==> err.None? && closed == [] && closeErrs == [] && unchanged(this)
      ensures stopped && sent == old(sent) && payloadType == old(payloadType)
      ensures !old(stopped) && !old(sent) ==>
        err.None? && closed == [] && closeErrs == [] && encodings == old(encodings)
      ensures !old(stopped) && old(sent) ==>
        var k := FirstFailure(UnbindFailures(old(encodings), tracks));
        && |encodings| == |old(encodings)|
        && (forall i :: 0 <= i < k ==> encodings[i] == old(encodings)[i].(track := None))
        && (forall i :: k <= i < |encodings| ==> encodings[i] == old(encodings)[i])
        && (k < |encodings| ==> err == UnbindError(old(encodings)[k], tracks) && closed == [] && closeErrs == [])
        && (k == |encodings| ==>
              && err.None?
              && closed == CloseTargets(encodings)
              && |closeErrs| == |closed|
              && forall j :: 0 <= j < |closeErrs| ==> closeErrs[j] == closeResult(j))
    {
      if stopped {
        return None, [], [];
      }
      stopped := true;
      if !sent {
        return None, [], [];
      }
      err := ReplaceTrack(None, tracks);
      if err.Some? {
        return err, [], [];
      }
      closed, closeErrs := CloseStreams(closeResult);
    }

    /** The close loop of Stop: every stream of every encoding, in order, with
        every result collected; `closeResult(j)` is the result of the j-th
        Close call. */
    method CloseStreams(closeResult: nat -> Option<Error>) returns (closed: seq<CloseTarget>, closeErrs: seq<Option<Error>>)
      ensures closed == CloseTargets(encodings)
      ensures |closeErrs| == |closed|
      ensures forall j :: 0 <= j < |closeErrs| ==> closeErrs[j] == closeResult(j)
    {
      closed := [];
      var i := 0;
      while i < |encodings|
        invariant 0 <= i <= |encodings|
        invariant closed == CloseTargets(encodings[..i])
      {
        var e := encodings[i];
        ghost var start := closed;
        closed := closed + [CloseTarget(i, Primary), CloseTarget(i, Primary)];
        if e.rtx.Some? {
          closed := closed + [CloseTarget(i, Rtx)];
        }
        if e.fec.Some? {
          closed := closed + [CloseTarget(i, Fec)];
        }
        assert closed == start + TargetsOf(i, e);
        assert encodings[..i + 1][..i] == encodings[..i];
        i := i + 1;
      }
      assert encodings[..|encodings|] == encodings;
      // The k-th Close call returns closeResult(k); the errors are kept in call order.
      closeErrs := seq(|closed|, j requires 0 <= j => closeResult(j));
    }

    // -------------------------------------------------------------------------
    // The read family

    /** The `select` on the two latches: it blocks (no outcome) while both are
        open, takes the send branch once `sent` is closed, the closed-pipe
        branch once `stopped` is, and either one when both are. */
    function Select(onSend: ReadResult): (r: set<ReadResult>)
      reads this
      ensures r == {} <==> !sent && !stopped
      ensures sent ==> onSend in r
      ensures stopped ==> ReadFailed(ClosedPipe) in r
      ensures forall x :: x in r ==> (sent && x == onSend) || (stopped && x == ReadFailed(ClosedPipe))
    {
      (if sent then {onSend} else {}) + (if stopped then {ReadFailed(ClosedPipe)} else {})
    }

    /** Read: RTCP of the base encoding. */
    function Read(): (r: set<ReadResult>)
      reads this
      ensures !sent && !stopped ==> r == {}
      ensures sent && !stopped ==> r == {ReadFrom(0, Primary)}
      ensures !sent && stopped ==> r == {ReadFailed(ClosedPipe)}
      ensures sent && stopped ==> r == {ReadFrom(0, Primary), ReadFailed(ClosedPipe)}
    {
      Select(ReadFrom(0, Primary))
    }

    /** ReadRtx: without an RTX reader on the base encoding it fails at once,
        whatever the latches say. */
    function ReadRtx(): (r: set<ReadResult>)
      reads this
      requires Valid()
      ensures encodings[0].rtx.None? ==> r == {ReadFailed(NoProgress)}
      ensures encodings[0].rtx.Some? ==>
        && (r == {} <==> !sent && !stopped)
        && (forall x :: x in r ==> x == ReadFrom(0, Rtx) || x == ReadFailed(ClosedPipe))
        && (sent ==> ReadFrom(0, Rtx) in r)
        && (!sent ==> ReadFrom(0, Rtx) !in r)
        && (stopped ==> ReadFailed(ClosedPipe) in r)
        && (!stopped ==> ReadFailed(ClosedPipe) !in r)
    {
      if encodings[0].rtx.None? then {ReadFailed(NoProgress)} else Select(ReadFrom(0, Rtx))
    }

    /** ReadFec: as ReadRtx, for the FEC reader. */
    function ReadFec(): (r: set<ReadResult>)
      reads this
      requires Valid()
      ensures encodings[0].fec.None? ==> r == {ReadFailed(NoProgress)}
      ensures encodings[0].fec.Some? ==>
        && (r == {} <==> !sent && !stopped)
        && (forall x :: x in r ==> x == ReadFrom(0, Fec) || x == ReadFailed(ClosedPipe))
        && (sent ==> ReadFrom(0, Fec) in r)
        && (!sent ==> ReadFrom(0, Fec) !in r)
        && (stopped ==> ReadFailed(ClosedPipe) in r)
        && (!stopped ==> ReadFailed(ClosedPipe) !in r)
    {
      if encodings[0].fec.None? then {ReadFailed(NoProgress)} else Select(ReadFrom(0, Fec))
    }

    /** ReadSimulcast: after the latch, the first encoding whose present track
        carries `rid`, else a no-track-for-RID error carrying `rid`. */
    function ReadSimulcast(rid: string): (r: set<ReadResult>)
      reads this
      ensures r == {} <==> !sent && !stopped
      ensures stopped ==> ReadFailed(ClosedPipe) in r
      ensures forall x :: x in r && x.ReadFrom? ==>
        && sent && x.stream == Primary && x.index < |encodings| && HasRid(encodings[x.index], rid)
        && forall j :: 0 <= j < x.index ==> !HasRid(encodings[j], rid)
      ensures sent && RidTaken(encodings, rid) ==> exists x :: x in r && x.ReadFrom?
      ensures sent && !RidTaken(encodings, rid) ==> ReadFailed(NoTrackForRid(rid)) in r
      ensures forall x :: x in r && x.ReadFailed? ==>
        (x.error == ClosedPipe && stopped) || (x.error == NoTrackForRid(rid) && sent && !RidTaken(encodings, rid))
    {
      match FirstWithRid(encodings, rid)
      case Some(i) => Select(ReadFrom(i, Primary))
      case None => Select(ReadFailed(NoTrackForRid(rid)))
    }

    /** SetReadDeadlineSimulcast: the deadline goes to the primary stream of the
        first encoding whose present track carries `rid` (`Ok(index)`), else a
        no-track-for-RID error. The latches are not consulted. */
    function SetReadDeadlineSimulcast(rid: string): (r: Result<nat>)
      reads this
      ensures r.Ok? ==> r.value < |encodings| && HasRid(encodings[r.value], rid)
      ensures r.Ok? ==> forall j :: 0 <= j < r.value ==> !HasRid(encodings[j], rid)
      ensures r.Err? <==> !RidTaken(encodings, rid)
      ensures r.Err? ==> r.error == NoTrackForRid(rid)
    {
      match FirstWithRid(encodings, rid)
      case Some(i) => Ok(i)
      case None => Err(NoTrackForRid(rid))
    }

    /** With the invariant, the RID lookup finds the one encoding that carries the RID. */
    lemma SimulcastLookupIsExact(rid: string, i: nat)
      requires Valid()
      requires i < |encodings| && HasRid(encodings[i], rid)
      ensures SetReadDeadlineSimulcast(rid) == Ok(i)
      ensures sent ==> ReadFrom(i, Primary) in ReadSimulcast(rid)
    {
      RidLookupIsExact(encodings, rid, i);
    }

    /** After Send activated an encoding, GetParameters reports the SSRCs Send was given. */
    lemma ActivatedEncodingIsReported(e: Encoding, p: EncodingParameters, codec: Codec, headerExtensions: seq<string>)
      requires e.track.Some?
      ensures var r := ReportedEncoding(Activate(Prepare(e, p), p, codec, headerExtensions), payloadType);
        && r.ssrc == p.ssrc
        && r.rid == e.track.value.rid
        && (RtxNegotiated(p, codec) ==> r.rtxSsrc == p.rtxSsrc)
        && (FecNegotiated(p) ==> r.fecSsrc == p.fecSsrc)
    {
    }
  }

  /** NewRTPSender: fails on a missing track, then on a missing transport, then
      if the random id cannot be generated; otherwise the sender holds exactly
      one encoding, for the given track, and neither latch is closed. */
  method NewRTPSender(api: Api, track: Option<TrackLocal>, transport: Option<DtlsTransport>, generatedId: Result<string>,
                      ssrc: SSRC, rtxSsrc: SSRC, fecSsrc: SSRC)
    returns (sender: RTPSender?, err: Option<Error>)
    ensures track.None? ==> sender == null && err == Some(TrackNil)
    ensures track.Some? && transport.None? ==> sender == null && err == Some(DtlsTransportNil)
    ensures track.Some? && transport.Some? && generatedId.Err? ==> sender == null && err == Some(generatedId.error)
    ensures track.Some? && transport.Some? && generatedId.Ok? ==>
      && err.None? && sender != null && fresh(sender) && sender.Valid()
      && sender.Track() == track && |sender.encodings| == 1
      && sender.encodings == [NewEncoding(track.value, api, ssrc, rtxSsrc, fecSsrc)]
      && sender.kind == track.value.kind && sender.id == generatedId.value && sender.transport == transport.value
      && sender.api == api && sender.payloadType == 0
      && !sender.sent && !sender.stopped
  {
    if track.None? {
      return null, Some(TrackNil);
    }
    if transport.None? {
      return null, Some(DtlsTransportNil);
    }
    if generatedId.Err? {
      return null, Some(generatedId.error);
    }
    sender := new RTPSender(generatedId.value, track.value, transport.value, api, ssrc, rtxSsrc, fecSsrc);
    err := None;
  }
}
