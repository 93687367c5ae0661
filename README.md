# pion-webrtc RTPSender and RED fmtp, modelled in Dafny

Two components of the pion WebRTC stack are modelled. Their properties are proved.

**The `RTPSender`** (`rtp_sender.dfy`, module `RtpSender`) controls how a local track is encoded and sent to a remote peer.
- The class `RTPSender` holds an ordered list of track encodings. Index 0 is the base encoding; the others are simulcast layers.
- Each encoding (`Encoding`) has:
  - an optional track and the context the track was bound to;
  - a primary SSRC (RFC 3550, section 3);
  - an RTX SSRC and an optional RTX stream (RFC 4588);
  - a FEC SSRC and an optional FlexFEC stream.
- The sender also holds its media `kind`, `payloadType`, random `id` and the `Api` it was created from.
- Two one-shot latches, `sent` and `stopped`, stand for the `sendCalled` and `stopCalled` channels. The fields are read directly where the Go code calls `hasSent`/`hasStopped`.
- `NewRTPSender` is a module-level method that allocates the sender through its constructor. `addEncoding`, `AddEncoding`, `Send`, `ReplaceTrack` and `Stop` are methods with `modifies this`.
- Each method states the new state and its error result, following the order in which the Go code checks things.
- Every method keeps the invariant `Valid()`:
  - the list is never empty;
  - every present track has the sender's kind;
  - the RIDs of present tracks are pairwise distinct;
  - while the base track is present, every track is, and a simulcast list shares the base's id and stream id and has non-empty RIDs;
  - after `Send`, every encoding has a context.
- The read family (`Read`, `ReadRtx`, `ReadFec`, `ReadSimulcast`) is modelled as functions that return the set of possible outcomes of the channel `select`:
  - an empty set means the call blocks;
  - when both latches are closed, either branch may be taken.
- `getParameters`, `Track` and `SetReadDeadlineSimulcast` are read-only functions.

The sender's collaborators are inputs:
- `Api` holds the media-engine lookups as function-valued fields and the two setting-engine flags. The sender keeps the one it was created with, as the Go sender keeps `r.api`.
- `TrackBehaviour` gives the tracks' `Bind`/`Unbind` results.
- The results of closing streams are a function of the call's position.
- The random SSRCs and the random id are parameters.

**The RED fmtp value** (`fmtp_red.dfy`, module `Fmtp`) is the parameter list of an `audio/red` fmtp line: the slash-separated block payload types of RFC 2198, section 5.
- `MimeType`, `Match` and `Parameter` are modelled as functions.
- Lemmas prove that matching is equality of the parameter lists, reflexive and symmetric, and sensitive to length and to each element.
- The parser is not part of this model. `ParseRed` is a reconstruction: trim the line, split on `/`, trim every token. It exists only to state the examples of `internal/fmtp/red_test.go`.

## Model

| member | source | states |
|---|---|---|
| Fmtp.MimeType | internal/fmtp/red.go:11-13 | the MIME type is exactly `audio/red`, whatever the parameters |
| Fmtp.ElementsEqualIsEquality | internal/fmtp/red.go:23-27 | the early-return comparison loop holds exactly when the two equally long lists are equal |
| Fmtp.Match | internal/fmtp/red.go:15-30 | a red value matches another value iff that value is red too and its parameter list is the same, in length and in every position |
| Fmtp.Lookup | internal/fmtp/red.go:33-39 | the search finds `key` iff it occurs in the list, returning `key` then and `""` otherwise |
| Fmtp.Parameter | internal/fmtp/red.go:32-40 | `Parameter(key)` is `(key, true)` iff `key` is one of the parameters, else `("", false)` |
| Fmtp.MatchReflexive | internal/fmtp/red_test.go:70-74 | every red value matches itself |
| Fmtp.MatchSymmetric | internal/fmtp/red_test.go:104-111 | matching gives the same answer in both directions |
| Fmtp.MatchOnlyRed | internal/fmtp/red.go:16-19 | a value of another fmtp kind never matches |
| Fmtp.MatchNeedsSameLength | internal/fmtp/red.go:20-22 | lists of different length never match, in either direction |
| Fmtp.MatchNeedsSameElements | internal/fmtp/red.go:23-27 | equally long lists that differ at some position never match, in either direction |
| Fmtp.MatchTransitive | internal/fmtp/red.go:15-30 | matching is transitive (with MatchReflexive and MatchSymmetric, an equivalence) |
| Fmtp.SplitJoin | internal/fmtp/red_test.go:29-46 | the reconstructed split on `/` loses nothing (joining the tokens gives the line back) and no token holds a separator |
| Fmtp.TrimSpaceIgnoresSurroundingSpace | internal/fmtp/red_test.go:21-28 | whitespace around a line does not change its trimmed form |
| Fmtp.ParseIgnoresSurroundingSpace | internal/fmtp/red_test.go:75-79 | whitespace around the input does not change the parsed list (reconstructed parse) |
| Fmtp.ParseOneParam | internal/fmtp/red_test.go:13-20 | `"111"` parses to `["111"]` (reconstructed parse) |
| Fmtp.ParseOneParamWithSpace | internal/fmtp/red_test.go:21-28 | `"\t111 "` parses to `["111"]` (reconstructed parse) |
| Fmtp.ParseTwoParams | internal/fmtp/red_test.go:29-37 | `"111/112"` parses to `["111", "112"]` (reconstructed parse) |
| Fmtp.ParseTwoParamsWithSpace | internal/fmtp/red_test.go:38-46 | `"\n\t111/112 "` parses to `["111", "112"]` (reconstructed parse) |
| Fmtp.CompareEqual | internal/fmtp/red_test.go:70-74 | `"111/111"` matches itself |
| Fmtp.CompareWhitespaceVariants | internal/fmtp/red_test.go:75-79 | `"111/111"` and `"  \n 111/111\t\n"` match, in both directions |
| Fmtp.CompareInconsistent | internal/fmtp/red_test.go:80-84 | `"111/112"` and `"112/112"` do not match, in either direction |
| Fmtp.CompareExtraParam | internal/fmtp/red_test.go:85-89 | `"111"` and `"111/111"` do not match, in either direction |
| RtpSender.FirstWithRid | rtpsender.go:618-623 | the RID lookup returns the first encoding whose present track carries the RID, and none iff no encoding does |
| RtpSender.RidLookupIsExact | rtpsender.go:193-201 | with pairwise distinct RIDs, the lookup finds the one encoding that carries the RID |
| RtpSender.AppendKeepsRidsDistinct | rtpsender.go:193-203 | appending a track whose RID no present track carries keeps the RIDs pairwise distinct |
| RtpSender.NewEncoding | rtpsender.go:207-240 | a new encoding holds the track and its SSRC, with no context or streams yet; an RTX SSRC is allocated only when RTX is enabled and some codec has an associated codec, a FEC SSRC only when FlexFEC is enabled and a FlexFEC codec exists |
| RtpSender.CloseTargetsCount | rtpsender.go:472-489 | Stop's close sequence makes, for every target, exactly `CloseCount` calls: two for each encoding's primary stream, one for its RTX and one for its FEC stream when present, none for anything else |
| RtpSender.RTPSender.constructor | rtpsender.go:80-89 | the new sender has the given id, transport, `Api` and track kind, payload type 0, both latches open, and exactly one encoding built by `addEncoding` |
| RtpSender.RTPSender.AppendEncoding | rtpsender.go:207-240 | `addEncoding` appends exactly the new encoding at the end and keeps the invariant |
| RtpSender.RTPSender.Track | rtpsender.go:243-252 | the track is the base encoding's, or none for an empty list |
| RtpSender.RTPSender.GetParameters | rtpsender.go:120-150 | one entry per encoding, in order, with its RID (empty when the track is gone), its SSRCs and the sender's payload type; the codecs are the transceiver's when there is one, else the media engine's |
| RtpSender.RTPSender.AddEncoding | rtpsender.go:161-205 | the errors come in a fixed order: nil track, empty RID, stopped, already sent, no base encoding with a RID, base mismatch, RID collision; an error leaves the list unchanged; success appends one encoding holding the track and keeps the RIDs distinct |
| RtpSender.RTPSender.Activate | rtpsender.go:350-445 | after a bind, the context records the codec and the stream info carries the SSRC and payload type; `red_pt` is set iff the codec is Opus and the first codec is RED; the RTX stream is created only on an exact association with a non-zero RTX SSRC, the FEC stream only when a FlexFEC codec exists and the FEC SSRC is non-zero, each tagged with the primary SSRC; otherwise those fields keep their values |
| RtpSender.RTPSender.Send | rtpsender.go:319-450 | already-sent and then track-removed errors come before any change; otherwise the encodings are bound in order, and a bind failure at k returns its error with encodings before k activated, encoding k holding its new SSRC and context, and `sent` still open; on success every encoding is activated and `sent` is closed; `stopped` is never consulted |
| RtpSender.RTPSender.SendEncoding | rtpsender.go:331-445 | one step of the Send loop keeps the encoding's track, gives it the SSRC of its parameters and a bind context |
| RtpSender.RTPSender.SendFrom | rtpsender.go:330-448 | the Send loop from a given index keeps the number of encodings and every encoding's track |
| RtpSender.RTPSender.SendFromStopsAtFirstFailure | rtpsender.go:330-448 | the Send loop stops at the first bind failure k: encodings up to and including k are sent, those after k are untouched, and the error is that of encoding k, or none when every bind succeeds |
| RtpSender.RTPSender.BindEncodings | rtpsender.go:330-446 | the loop leaves exactly the encodings and error of `SendFrom` from index 0, keeps the invariant, and leaves every encoding bound when no bind fails |
| RtpSender.RTPSender.SendEncodingAt | rtpsender.go:331-445 | one iteration replaces exactly encoding `idx` by its `SendEncoding` step and returns the track's bind outcome |
| RtpSender.RTPSender.ReplaceTrack | rtpsender.go:257-316 | kind and then envelope errors change nothing; before Send, or when removing the track, every encoding gets the new track (after Send each old track is unbound first, stopping at the first failure); after Send a new track is bound with the old id and SSRC, and on failure the old track is bound again and the list is unchanged |
| RtpSender.RTPSender.SwapTracks | rtpsender.go:272-285 | after Send each present track is unbound in order and the loop stops at the first failure, returning its error; the encodings before that point get the new track when it swaps (before Send, or removal), the rest are unchanged; on completion it reports the last encoding's track and context |
| RtpSender.RTPSender.Stop | rtpsender.go:453-492 | a repeated Stop changes nothing and returns no error; before Send it only closes `stopped`; after Send it removes the tracks and, if that succeeds, closes every stream and returns every close result in order |
| RtpSender.RTPSender.CloseStreams | rtpsender.go:472-489 | the close loop makes exactly the close calls of `CloseTargets`, in order, and collects the result of the j-th call at position j |
| RtpSender.RTPSender.Select | rtpsender.go:496-501 | a read blocks iff neither latch is closed; once `sent` is closed the send branch is possible, once `stopped` is the closed-pipe error is |
| RtpSender.RTPSender.Read | rtpsender.go:495-502 | the possible outcomes for each latch state, including a closed-pipe error after Stop without Send and both outcomes when both latches are closed |
| RtpSender.RTPSender.ReadRtx | rtpsender.go:521-532 | without an RTX stream the read fails with no-progress whatever the latches say; otherwise it blocks iff neither latch is closed, reading the RTX stream is possible iff `sent` is closed and the closed-pipe error iff `stopped` is, so both when both are |
| RtpSender.RTPSender.ReadFec | rtpsender.go:551-562 | as ReadRtx, for the FEC stream |
| RtpSender.RTPSender.ReadSimulcast | rtpsender.go:581-593 | after Send it reads from the first encoding whose track carries the RID, or fails with a no-track error naming the RID; the closed-pipe error is possible iff Stop has been called; it blocks iff neither latch is closed |
| RtpSender.RTPSender.SetReadDeadlineSimulcast | rtpsender.go:614-624 | the deadline goes to the first encoding whose track carries the RID; without one the call fails with a no-track error naming the RID |
| RtpSender.RTPSender.SimulcastLookupIsExact | rtpsender.go:581-593 | under the invariant, both RID lookups reach the one encoding carrying the RID |
| RtpSender.RTPSender.ActivatedEncodingIsReported | rtpsender.go:120-136 | after Send activates an encoding, `getParameters` reports the SSRC, RTX SSRC and FEC SSRC Send was given, and the track's RID |
| RtpSender.NewRTPSender | rtpsender.go:68-92 | a nil track fails first, then a nil transport, then a failed id generation; on success the sender has one encoding for the given track, the track's kind, the generated id, the given Api, payload type 0, and both latches open |

## Left out

- Interceptor plumbing is not modelled: `BindRTCPReader`, `BindLocalStream`, `UnbindLocalStream` and the RTP writer closures. An encoding's RTX or FEC stream, its RTCP reader and its stream info are created together, so one optional `StreamInfo` stands for all three.
- Stream I/O is not modelled. `srtpWriterFuture` `Read`/`WriteRTP`/`Close`/`SetReadDeadline` are foreign calls: a read outcome names the stream it would read from, and a close result is an input.
- The mutex and the blocking of the channel `select` are concurrency. The latches are two booleans, and a blocked read is the empty set of outcomes.
- `randutil` generation is randomness. The generated SSRCs and id (32 letters in the source) are parameters, and a failed id generation is an input.
- Media-engine lookups are not part of this model: `getCodecsByKind`, `getRTPParametersByKind`, `codecParametersAssociatedSearch` and `codecParametersSearchByMimeType` are function-valued inputs. `createStreamInfo` is reduced to the fields and attributes set here.
- The `Read*RTCP` wrappers are left out. They only call `rtcp.Unmarshal`, which is packet parsing in another library.
- `SetReadDeadline` is left out. It only forwards a `time.Time` to the base encoding's primary stream; it consults no latch and changes nothing.
- RtpSender.RTPSender.SetReadDeadlineSimulcast: returns the index of the chosen encoding instead of the result of that stream's `SetReadDeadline`, which is a foreign call.
- `util.FlattenErrs` is not modelled. Stop returns the collected list of close results.
- `isNegotiated`, `setNegotiated`, `setRTPTransceiver` and `Transport` are left out. They are locked getters and setters of fields no modelled operation reads; the transceiver's codecs enter `GetParameters` as an input.
- `payloadType` is never written in `rtpsender.go`, so the model keeps it at its initial 0 throughout.
- The media-engine lookups are taken as fixed for the sender's lifetime: the Go sender holds the API by pointer, so the lookups made when an encoding is added and those made by Send are not promised to agree there.
- Encodings are values in a sequence, not shared pointers. Aliasing is not captured: for example, a track holding the context whose codec list ReplaceTrack updates.
- RtpSender.RTPSender.ReplaceTrack: when binding the new track fails and the original track is nil (it was removed after Send), the Go code calls `Bind` on nil, which panics. The model returns `RebindOfRemovedTrack` instead.
- RtpSender.RTPSender.Send: once the already-sent and track-removed checks have passed, requires at least as many parameter encodings as track encodings, because the Go code then indexes `parameters.Encodings` with no check.
- Fmtp.Match: `strings.EqualFold` on the MIME types is modelled for ASCII letters only; Unicode simple case folding is not modelled. Both MIME types are `audio/red`, so the comparison always succeeds.
- Fmtp.ParseRed: the red fmtp parser is not part of this model. This reconstruction (`strings.TrimSpace`, then split on `/`, then trim each token) is used only to state the test examples.
