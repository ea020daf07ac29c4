# IPC camera: streaming, recording and signaling, verified

A Dafny model of the stateful core of an IP camera that streams video over WebRTC
and records it to disk, with the cloud server that introduces viewers to cameras.
Every function, method and lemma is proved for all inputs, all runs or all reachable
states; nothing was executed.

Each component comes as functions on values, which say what an operation does, with
the theorems about whole runs; and as a class in the form of the original (fields,
loops, buffers filled in place), each method of which is proved to compute its function.

| files | component |
|---|---|
| `Json`, `JsonText`, `JsonRoundTrip`, `JsonInput`; `JsonWriter`, `JsonReader` | the JSON printer and the recursive-descent parser that should undo it |
| `Playlist`, `Recorder`, `RecordIndex`; `SegmentRecorder` | keyframe-aligned segments, retention window and HLS playlist, and the cloud's reading of that playlist |
| `Demand`; `Pipeline` | subscriptions that switch encoder and detector on and off, through two background workers |
| `FanOut`; `MediaFanOut` | bounded queues per viewer and the drain task |
| `Sessions`; `SessionTable` | viewer table, shared subscriptions, early ICE candidates |
| `Signaling`; `RoomTable` | the signaling server's rooms and what each client believes about them |
| `WebSocket` | the incremental frame decoder and the masked encoder |
| `GopCache` | the cache of recent groups of pictures |
| `Base` | options, concatenation, decimal text |

## What was found

- Parsing what the printer printed always succeeds, but integers below -2147483639 and
  above 4294967289 come back as reals, and an unsigned integer that fits a signed one comes
  back signed (`JsonRoundTrip.WriteThenParse` gives the exact condition). Whatever the
  reader accepts is free of both (`JsonRoundTrip.ReprintingIsLossless`).
- `readArray` accepts any token but `]` between two items: its test for a bad token asks for
  two types at once (3rdpart/jsoncpp/json_reader.cpp:566-567) and is never true
  (`JsonInput.AnyTokenSeparatesItems`). A failed parse always records exactly one error.
- The sub-stream encoder can stay on with no subscriber, in exactly two ways
  (`Demand.UnwantedEncoderStaysOnIff`): it refused to stop, and
  device_adapter/src/hisilicon_pipeline.cpp:339 ignores the answer; or demand came and went
  while the worker was in its second wait (lines 341-343), which asks only for new demand.
- The GOP snapshot is the published suffix if and only if that suffix fits the limits
  (`GopCache.SnapshotIsSuffixIffItFits`); an oversize frame leaves a hole.
- `create_viewer` can keep the preview subscription without a viewer; the exact condition is
  `Sessions.OrphanedExactlyByFailedStart`, no other event does it, and nothing but a later offer
  ends it, not even the plugin's stop (`Sessions.OnlyOffersOrphan`,
  `SessionTable.WebRtcPlugin.RemoveAllViewers`).
- A failed post of the drain can strand queued frames until the next frame; exactly when is
  `FanOut.StrandedExactlyByFailedPost` and `FanOut.RescuedExactlyByNextFrame`.
- A playlist is read back by the cloud exactly when every name is one line, has no blanks
  around it, does not start with `#` and ends in `.m4s`.
- The index of an older day names a deleted file for a moment during a prune
  (`RecordIndex.OlderListLagsBehind`), today's never does (`RecordIndex.IndexSoundThroughout`)
  unless its rewrite fails (`RecordIndex.FailedRewriteBreaksIndex`); after every step all are
  right again (`RecordIndex.AllIndexesStaySound`).

## Model

| member | source | states |
|---|---|---|
| `JsonRoundTrip.WriteThenParse` | 3rdpart/jsoncpp/json_reader.cpp:195-242 | parsing what `FastWriter` prints for any well-formed real-free value always succeeds and gives `Again(v)`, and gives `v` itself if and only if every signed integer is at least -2147483639 and every unsigned one lies in 2147483648..4294967289 |
| `JsonRoundTrip.ReprintingIsLossless` | 3rdpart/jsoncpp/json_reader.cpp:151-191 | for every text the reader accepts the value is well formed (sorted NUL-free keys, 32-bit integers), and unless it holds a real, printing and parsing it again returns it unchanged |
| `JsonRoundTrip.ReadBack` | 3rdpart/jsoncpp/json_writer.cpp:208-263 | the reader, given the text of a value and anything that may follow it, consumes exactly that text |
| `JsonRoundTrip.ExtremeIntegersComeBackAsReals` | 3rdpart/jsoncpp/json_reader.cpp:593-606 | the integers next to the exact range print as integers and come back as reals |
| `JsonRoundTrip.AccumulateDecimal` | 3rdpart/jsoncpp/json_reader.cpp:596-607 | the digit loop accepts a printed number exactly when all but its last digit stay below the threshold |
| `JsonRoundTrip.QuotedBack` | 3rdpart/jsoncpp/json_writer.cpp:111-172 | a quoted string is one token whatever follows it, and decodes to the string it was made from, escapes and control characters included |
| `JsonRoundTrip.ValueIsRead` | 3rdpart/jsoncpp/json_reader.cpp:195-242 | every value the reader returns is well formed and inside the exact integer range, so it can be printed and read back |
| `JsonInput.EscapesDecodeToUtf8` | 3rdpart/jsoncpp/json_reader.cpp:69-103 | every Unicode character written as one escape or as a surrogate pair, anywhere in a string, decodes to valid UTF-8 that the strict decoder of section 3 of RFC 3629 takes back to that character |
| `JsonInput.PointBack` | 3rdpart/jsoncpp/json_reader.cpp:704-756 | four hexadecimal digits, or two escapes for a pair, give the code point and leave exactly the rest |
| `JsonInput.AnyTokenSeparatesItems` | 3rdpart/jsoncpp/json_reader.cpp:560-576 | between two items, any text that is read as one token (a mark, a string, a number, a word, a bad character), with blanks after it or not, is accepted if and only if that token is not the closing bracket |
| `JsonInput.AnyMarkSeparatesItems` | 3rdpart/jsoncpp/json_reader.cpp:560-576 | the same for the one-character marks: exactly those other than the closing bracket separate |
| `JsonInput.StringSeparatesItems` | 3rdpart/jsoncpp/json_reader.cpp:560-576 | a whole string between two items is taken for their separator |
| `JsonInput.Utf8Decodes` | 3rdpart/jsoncpp/json_reader.cpp:69-103 | `codePointToUTF8` writes valid UTF-8, shortest form and no surrogate, exactly for the Unicode scalar values |
| `JsonInput.CommentsAreInvisible` | 3rdpart/jsoncpp/json_reader.cpp:378-435 | a block comment in front of a value does not change what is read |
| `JsonInput.BlanksAreInvisible` | 3rdpart/jsoncpp/json_reader.cpp:349-359 | nor do blanks |
| `Json.PutIsMapUpdate` | 3rdpart/jsoncpp/json_value.cpp:1022-1042 | assigning a member of the ordered object is an update of the map it stands for: the last duplicate wins |
| `Json.PutKeepsOrder` | 3rdpart/jsoncpp/json_value.cpp:218-223 | assigning a member keeps the keys strictly increasing in `strcmp` order |
| `JsonReader.Reader.ParseDocument` | 3rdpart/jsoncpp/json_reader.cpp:122-191 | for every text the parse terminates, succeeds exactly when the specification does, returns its value, and records no error on success and exactly one on failure |
| `JsonReader.Reader.ReadOne` | 3rdpart/jsoncpp/json_reader.cpp:195-242 | reads one value from the cursor: value, cursor and error count are those of `ReadValue` on the remaining text |
| `JsonReader.Reader.ReadObject` | 3rdpart/jsoncpp/json_reader.cpp:480-535 | the member loop, with its trailing-comma and empty-name rules, comments and recovery, computes `ReadMembers` |
| `JsonReader.Reader.ReadMemberValue` | 3rdpart/jsoncpp/json_reader.cpp:501-530 | colon, value and separator of one member, with each of the three error exits |
| `JsonReader.Reader.ReadArray` | 3rdpart/jsoncpp/json_reader.cpp:539-578 | the item loop computes `ReadItems`; any token but `]` separates two items |
| `JsonReader.Reader.NextRawToken` | 3rdpart/jsoncpp/json_reader.cpp:274-345 | kind, characters and end of the next token, for every text |
| `JsonReader.Reader.SkipCommentTokens` | 3rdpart/jsoncpp/json_reader.cpp:246-260 | the next token that is not a comment |
| `JsonReader.Reader.ReadString` | 3rdpart/jsoncpp/json_reader.cpp:464-476 | finds the closing quote past all escapes, or takes the whole text |
| `JsonReader.Reader.ReadComment` | 3rdpart/jsoncpp/json_reader.cpp:378-448 | accepts block and line comments and consumes what the specification says |
| `JsonReader.Reader.Match` | 3rdpart/jsoncpp/json_reader.cpp:363-374 | a literal is consumed whole or not at all |
| `JsonReader.Reader.DecodeStringToken` | 3rdpart/jsoncpp/json_reader.cpp:658-701 | the decoding loop computes `DecodeString`, one error exactly on failure |
| `JsonReader.Reader.DecodeUnicodeCodePoint` | 3rdpart/jsoncpp/json_reader.cpp:704-756 | four hexadecimal digits, and a second escape after a high surrogate |
| `JsonReader.Reader.DecodeNumberToken` | 3rdpart/jsoncpp/json_reader.cpp:582-616 | integer, unsigned integer or real by the two thresholds, without 32-bit overflow |
| `JsonReader.Reader.RecoverFromError` | 3rdpart/jsoncpp/json_reader.cpp:774-787 | recovery stops behind the wanted token or at the end, and leaves the errors alone |
| `JsonWriter.FastWriter.WriteDocument` | 3rdpart/jsoncpp/json_writer.cpp:198-204 | the document is the text of the value and a line feed |
| `JsonWriter.FastWriter.WriteValue` | 3rdpart/jsoncpp/json_writer.cpp:208-263 | appends exactly the text of the value to the document |
| `JsonWriter.UintToString` | 3rdpart/jsoncpp/json_writer.cpp:30-40 | fills the buffer backwards with the decimal digits and a NUL and touches nothing else |
| `JsonWriter.IntToString` | 3rdpart/jsoncpp/json_writer.cpp:42-54 | 32 characters are always enough, and the text is the signed decimal |
| `JsonWriter.ValueToQuotedString` | 3rdpart/jsoncpp/json_writer.cpp:111-172 | the shortcut for plain strings and the escaping loop give the same text |
| `Recorder.PlaylistMirrorsWindow` | src/record/segment_recorder.cpp:390-425 | in every run, while a session is active the playlist entries are the kept segments of the current day in order, and all their files exist |
| `Recorder.NumbersSurviveRecording` | src/record/segment_recorder.cpp:449-573 | between any two moments of one session the playlist only slides: a listed segment keeps one media sequence number until dropped (section 4.3.3.2 of RFC 8216) |
| `Recorder.SegmentsStartWithKeyframe` | src/record/segment_recorder.cpp:525-672 | in every run the first frame written to each opened segment is the video keyframe that opened it, and an open segment means no keyframe is awaited (section 4.3.5.1 of RFC 8216) |
| `Recorder.RotationsAreTimely` | src/record/segment_recorder.cpp:567-589 | with steady timestamps and keyframes at most `gap` apart, every segment closed by rotation lasted the configured time and its record is less than `gap` longer |
| `Recorder.KeepFrom` | src/record/segment_recorder.cpp:365-388 | where pruning stops: the longest suffix that is a single segment or meets both limits |
| `RecordIndex.AllIndexesStaySound` | src/record/segment_recorder.cpp:390-447 | in every run, if the index files were right at the beginning, after every step each day's index on disk names only files that exist, today's and all older ones, through closes, prunes, day changes and files that cannot be unlinked |
| `RecordIndex.IndexSoundThroughout` | src/record/segment_recorder.cpp:390-425 | in every run, while the open segment is closed, today's index names only existing files at every intermediate point of the prune, and the last point is the disk the close leaves behind |
| `RecordIndex.PruneIsTraced` | src/record/segment_recorder.cpp:390-425 | the traced states are those of the prune: they start at the disk before it and end at the disk after it |
| `RecordIndex.OlderListLagsBehind` | src/record/segment_recorder.cpp:394-423 | between an unlink and the rewrite of an older day's list all lists are right exactly when the file is of today, could not be unlinked, or was not listed |
| `RecordIndex.FailedRewriteBreaksIndex` | src/record/segment_recorder.cpp:390-398 | if today's list cannot be rewritten, it stays right if and only if the unlink fails as well |
| `RecordIndex.TargetCoversInEveryRun` | src/record/segment_recorder.cpp:449-523 | in every run of the recorder the target duration covers the ceiling of every listed duration (section 4.3.3.1 of RFC 8216) |
| `Recorder.SameNameSameFile` | src/record/segment_recorder.cpp:234-264 | two media files with one name are one file, also across days |
| `Recorder.NextName` | src/record/segment_recorder.cpp:254-264 | one of 99 candidates, and a name not taken yet if and only if one of them is free |
| `SegmentRecorder.Writer.PruneRetained` | src/record/segment_recorder.cpp:390-425 | the prune loop terminates and leaves window, playlist, files and the index files of all days as `Prune` says, the lists and directories of older days included |
| `SegmentRecorder.Writer.RewriteDayPlaylist` | src/record/segment_recorder.cpp:427-447 | the index of an older day lists its kept segments in order |
| `SegmentRecorder.Writer.OverRetain` | src/record/segment_recorder.cpp:365-388 | the two running sums decide exactly whether the window is over a limit |
| `SegmentRecorder.Writer.CloseCurrentSegment` | src/record/segment_recorder.cpp:449-482 | new state is `Close`: the closed file enters the window and the playlist, then the window is pruned |
| `SegmentRecorder.Writer.BeginPlaylist` | src/record/segment_recorder.cpp:484-523 | a new playlist lists the kept segments of its day again |
| `SegmentRecorder.Writer.OpenNextSegment` | src/record/segment_recorder.cpp:525-573 | new state is `OpenNext`, through day changes and every failure |
| `SegmentRecorder.Writer.RotateToNewSegment` | src/record/segment_recorder.cpp:575-589 | new state is `Rotate` |
| `SegmentRecorder.Writer.ProcessFrame` | src/record/segment_recorder.cpp:591-672 | new state is `Process`: late audio configuration, awaited keyframes, rotation |
| `Playlist.TargetAlwaysCovers` | src/record/hls_playlist.cpp:18-31 | after any operations the target duration covers the ceiling of every listed duration (section 4.3.3.1 of RFC 8216) |
| `Playlist.NumbersAreStable` | src/record/hls_playlist.cpp:18-42 | after any appends, drops and finishes, each number still listed denotes the same segment |
| `Playlist.ReadsBackIffNamesAreGood` | cloud/signaling/record_http.js:22-27 | the cloud lists exactly the names of the playlist the device printed, in order, if and only if each name is one line, unpadded, no comment and ends in `.m4s` |
| `Playlist.PruneUnlisted` | cloud/signaling/record_http.js:29-58 | deletes exactly the media files the index text does not list |
| `Playlist.PruneAfterUpload` | cloud/signaling/record_http.js:29-58 | together with the device's printing: exactly the media files the device does not list |
| `Playlist.Print` | src/record/hls_playlist.cpp:58-86 | the printing loop writes the header, two lines for each entry, and the end mark |
| `Playlist.HlsPlaylist.AppendSegment` | src/record/hls_playlist.cpp:18-31 | new state is `Append`, and the target still covers |
| `Playlist.HlsPlaylist.DropFront` | src/record/hls_playlist.cpp:33-42 | drops the front entry and advances the sequence number exactly when the name matches |
| `Playlist.HlsPlaylist.BeginAt` | src/record/hls_playlist.cpp:8-16 | new state is `Begin` |
| `Playlist.HlsPlaylist.FinishList` | src/record/hls_playlist.cpp:49-56 | new state is `Finish` |
| `Demand.SubscribersAreServed` | device_adapter/src/hisilicon_pipeline.cpp:268-345 | in every interleaving while the pipeline runs, a subscribed sub-stream is required, and a required one is being encoded |
| `Demand.DemandCallsAlternate` | src/media/media_source.cpp:104-167 | per stream, granted demand-on calls and demand-off calls alternate, beginning with on |
| `Demand.EncoderStopsOnlyWhenIdle` | device_adapter/src/hisilicon_pipeline.cpp:318-345 | the encoder is switched off only at shutdown or after a wait without a single demand call |
| `Demand.UnwantedEncoderStaysOnIff` | device_adapter/src/hisilicon_pipeline.cpp:318-345 | in every interleaving, once nobody wants the sub-stream and the worker has come to rest, the encoder is still on if and only if it refused to stop, or a demand-on call was granted after the worker had asked it to stop |
| `Demand.WorkerComesToRest` | device_adapter/src/hisilicon_pipeline.cpp:318-345 | without demand calls the worker does come to rest, after at most three steps, whatever the encoder answers |
| `Demand.EncoderCanStayOn` | device_adapter/src/hisilicon_pipeline.cpp:338-344 | both happen: a second short visit during the second wait, and a refused stop |
| `Demand.DetectorsAreAccountedFor` | device_adapter/src/hisilicon_pipeline.cpp:347-496 | in every interleaving each started detector is stopped, the single installed one, or the one whose load just ended; installs happen only with unchanged demand; after the shutdown all are stopped |
| `Pipeline.DevicePipeline.SetStreamActive` | device_adapter/src/hisilicon_pipeline.cpp:268-316 | new state and answer are those of `SetActive`, failed activation included |
| `Pipeline.DevicePipeline.IdleTimerEnds` | device_adapter/src/hisilicon_pipeline.cpp:329-340 | the region after the idle wait: stop, or start over; a sound system stays sound |
| `Pipeline.DevicePipeline.InstallDetector` | device_adapter/src/hisilicon_pipeline.cpp:470-483 | installs the loaded detector or stops it when demand has changed meanwhile; a sound system stays sound |
| `Pipeline.DevicePipeline.ReportLoad` | device_adapter/src/hisilicon_pipeline.cpp:366-379 | a failed load withdraws the demand it was for, and no other; a sound system stays sound |
| `Pipeline.DevicePipeline.DetectorTimerEnds` | device_adapter/src/hisilicon_pipeline.cpp:381-393 | stops the detector after an idle wait without demand |
| `Pipeline.DevicePipeline.BeginStop` | device_adapter/src/hisilicon_pipeline.cpp:199-227 | withdraws both demands, and the invariants of the whole system hold on |
| `Pipeline.DevicePipeline.EndStop` | device_adapter/src/hisilicon_pipeline.cpp:224-227 | after the second half of `stop` every detector ever started is stopped |
| `Pipeline.MediaSource.Subscribe` | src/media/media_source.cpp:104-141 | the whole call is its steps in order, from demand to entry; zero exactly when no subscription was entered; a sound system stays sound |
| `Pipeline.MediaSource.Unsubscribe` | src/media/media_source.cpp:143-167 | the whole call is its steps in order: erase, and release the stream after the last one; a sound system stays sound |
| `FanOut.FramesStayInOrder` | protocol/webrtc/webrtc_media.cpp:123-279 | in every interleaving, frames written, being written and queued for a viewer are a subsequence of the published ones, for both media |
| `FanOut.RemovedPeersSawOrder` | protocol/webrtc/webrtc_media.cpp:264-279 | the same for peers of removed viewers that a running drain still writes to |
| `FanOut.NoFrameIsStranded` | protocol/webrtc/webrtc_media.cpp:115-122 | while posting has never failed, a viewer with something queued has a drain coming, also when the table was empty in between; and the flag is never set without one |
| `FanOut.StrandedExactlyByFailedPost` | protocol/webrtc/webrtc_media.cpp:115-121 | in every run, a step strands queued frames if and only if it is the failure of the only post on its way, with no drain outstanding and somebody waiting |
| `FanOut.RescuedExactlyByNextFrame` | protocol/webrtc/webrtc_media.cpp:161-169 | stranded frames stay so exactly until a step queues something, which schedules a drain, or takes away all that waited |
| `FanOut.FailedPostStrandsFrame` | protocol/webrtc/webrtc_media.cpp:115-121 | such a run exists |
| `FanOut.QueuesStayBounded` | protocol/webrtc/webrtc_media.cpp:123-207 | counters equal the queued sizes; at most 4 video frames within the limit or one oversize keyframe; at most 16 audio frames within 16 KiB or one oversize frame |
| `FanOut.KeyframeRequestsAreBounded` | protocol/webrtc/webrtc_media.cpp:134-157 | overflow asks for at most one keyframe more than were published |
| `MediaFanOut.Media.EnqueueVideoFrame` | protocol/webrtc/webrtc_media.cpp:123-170 | new state is `EnqueueVideo` |
| `MediaFanOut.Media.OfferVideo` | protocol/webrtc/webrtc_media.cpp:138-159 | the loop over viewers, whether a keyframe must be asked for, and whether anything was queued |
| `MediaFanOut.Media.EnqueueAudioFrame` | protocol/webrtc/webrtc_media.cpp:172-207 | new state is `EnqueueAudio` |
| `MediaFanOut.Media.PostDrain` | protocol/webrtc/webrtc_media.cpp:115-121 | a failed post clears the flag |
| `MediaFanOut.Media.TakeBatches` | protocol/webrtc/webrtc_media.cpp:245-262 | every queue is handed over, counters reset, flag cleared |
| `Sessions.SubscriptionsAreAccountedFor` | protocol/webrtc/webrtc_session.cpp:10-298 | in every run: at most `limit` viewers, viewers only with the preview subscription held, the detector only for a connected viewer, and every subscription obtained is in its one handle or released, never both |
| `Sessions.OrphanedExactlyByFailedStart` | protocol/webrtc/webrtc_session.cpp:10-109 | in every run, an offer leaves the preview subscription held without a viewer if and only if nobody else watches, it was already so or the subscription was taken (again) and stored, and then the peer could not be started or the plugin had stopped |
| `Sessions.OnlyOffersOrphan` | protocol/webrtc/webrtc_session.cpp:159-298 | in every run no other event orphans the subscription, and none takes an orphaned one back |
| `Sessions.CandidatesArriveInOrder` | protocol/webrtc/webrtc_session.cpp:111-220 | in every run a peer was given only candidates addressed to its viewer (or to nobody), after its remote description, in arrival order, none twice or also elsewhere |
| `Sessions.BuffersStayBounded` | protocol/webrtc/webrtc_session.cpp:180-220 | at most 32 viewers buffered, at most 32 candidates each |
| `SessionTable.WebRtcPlugin.CreateViewer` | protocol/webrtc/webrtc_session.cpp:10-134 | new state is `Create`, through all its early exits, and the invariants hold |
| `SessionTable.WebRtcPlugin.OnConnected` | protocol/webrtc/webrtc_session.cpp:164-178 | marks only the session of this very peer and starts detections |
| `SessionTable.WebRtcPlugin.ApplyRemoteCandidate` | protocol/webrtc/webrtc_session.cpp:180-220 | new state is `Apply`: given, buffered or dropped |
| `SessionTable.WebRtcPlugin.RemoveViewer` | protocol/webrtc/webrtc_session.cpp:228-283 | new state is `Remove`: shared subscriptions are released with the last user |
| `SessionTable.WebRtcPlugin.RemoveAllViewers` | protocol/webrtc/webrtc_session.cpp:285-298 | nobody is left, no detector is held, the preview subscription is released exactly if there were viewers (an orphaned one stays held), other viewers' candidates stay |
| `SessionTable.WebRtcPlugin.StartPreview` | protocol/webrtc/webrtc_media.cpp:8-46 | new state and answer are those of `StartUplink` |
| `SessionTable.WebRtcPlugin.StartDetections` | protocol/webrtc/webrtc_media.cpp:48-101 | new state is `StartAi` |
| `Signaling.MembersAgreeWithServer` | cloud/signaling/rooms.js:56-155 | in every run, folding the messages sent to a still-open member gives the table: a viewer knows the room's master, the master knows exactly the room's viewers |
| `Signaling.RoomsStaySound` | cloud/signaling/rooms.js:35-155 | in every run each room is non-empty and within its limit, every entry is its connection's current peer, and no connection has two |
| `Signaling.LateCloseChangesNothing` | cloud/signaling/server.js:114-117 | a close from a connection whose entry is gone changes no room and no other client |
| `Signaling.ReplacedMasterIsOut` | cloud/signaling/rooms.js:56-74 | in every run, the master replaced by a join is out of the table at once, its socket no longer open, its handler still holding the old entry |
| `Signaling.SignalsStayInRoom` | cloud/signaling/rooms.js:157-196 | in every run a routed message goes to a current member of the sender's room: the named one whenever there is one, and from a viewer naming nobody the master |
| `Signaling.ZeroLimitLeavesEmptyRoom` | cloud/signaling/rooms.js:93-101 | why the theorems need room for one viewer: with none, a refused viewer would leave an empty room (cloud/signaling/server.js:39 always gives 1 to 3) |
| `Signaling.StepKeepsOk` | cloud/signaling/protocol.js:78-126 | every message and every close keeps the table and all pictures right |
| `RoomTable.SignalingRooms.JoinAsMaster` | cloud/signaling/rooms.js:56-91 | new state is `JoinMaster`, messages in order included |
| `RoomTable.SignalingRooms.JoinAsViewer` | cloud/signaling/rooms.js:93-123 | new state is `JoinViewer`; accepted exactly when the id is free and there is room |
| `RoomTable.SignalingRooms.LeaveRoom` | cloud/signaling/rooms.js:125-155 | new state is `Leave`: only an entry that is still in the table is removed |
| `RoomTable.SignalingRooms.NotifyViewers` | cloud/signaling/rooms.js:50-54 | one message to each viewer |
| `WebSocket.ChunkingIsInvisible` | protocol/webrtc/ws_client.cpp:259-321 | for every byte stream and every cut into chunks, deliveries, pongs and the close are those of feeding it at once |
| `WebSocket.EncodeThenParse` | protocol/webrtc/ws_client.cpp:323-350 | any frame built by the sender, with any mask and any length up to 65535, decodes to its opcode and payload (sections 5.2 and 5.3 of RFC 6455) |
| `WebSocket.SentThenReceived` | protocol/webrtc/ws_client.cpp:259-350 | a sequence of sent frames, however cut, is received as their meaning in order, up to the first close |
| `WebSocket.Consume` | protocol/webrtc/ws_client.cpp:263-321 | at most 65542 bytes stay buffered |
| `WebSocket.ConsumeIsIdempotent` | protocol/webrtc/ws_client.cpp:263-321 | consuming again without new bytes changes nothing |
| `WebSocket.WsClient.ConsumeFrames` | protocol/webrtc/ws_client.cpp:263-321 | the loop computes `Consume` |
| `WebSocket.WsClient.HandleTcpData` | protocol/webrtc/ws_client.cpp:259-261 | new state is `Feed` |
| `WebSocket.WsClient.SendFrame` | protocol/webrtc/ws_client.cpp:323-350 | hands `Encode` to the socket and answers what the socket answers, or refuses a closed connection or a payload over 65535 bytes |
| `GopCache.SnapshotIsReference` | src/media/gop_cache.cpp:20-70 | the snapshot is that of a cache that only ever holds one group, so it does not depend on `max_gops` |
| `GopCache.SnapshotIsSuffixIffItFits` | src/media/gop_cache.cpp:20-70 | the snapshot is the published suffix from the latest keyframe if and only if that suffix fits the byte and duration limits |
| `GopCache.CacheStaysOk` | src/media/gop_cache.cpp:9-61 | after every push history: exact byte counts, groups that start with a keyframe, and all three limits |
| `GopCache.TrimKeepsNewest` | src/media/gop_cache.cpp:53-61 | trimming never removes the newest group |
| `GopCache.OversizeFrameLeavesHole` | src/media/gop_cache.cpp:26-44 | an oversize inter frame is skipped and the group goes on without it |
| `GopCache.FirstFit` | src/media/gop_cache.cpp:53-61 | the trim point: the longest suffix within the limits |
| `GopCache.Cache.PushFrame` | src/media/gop_cache.cpp:20-51 | new contents are `Push`; true means the frame is now the last of the snapshot, false that nothing changed |
| `GopCache.Cache.SnapshotFromLatestKey` | src/media/gop_cache.cpp:63-70 | the frames of the newest group, which `SnapshotIsReference` and `SnapshotIsSuffixIffItFits` are about |
| `GopCache.Cache.TrimGops` | src/media/gop_cache.cpp:53-61 | the loop keeps the byte counter exact and computes `Trim` |

## Left out

- Reals in JSON: a real is kept as its text, `sscanf` is the parameter `scan`; the round trip is for real-free values.
- JSON comments are skipped, not stored; `StyledWriter`, YAML mode, strict mode and stream input are not modelled.
- JSON values are returned where the original assigns through its stack of nodes, so a partly filled root after a failed parse is not modelled; error texts and positions are reduced to one message each.
- Bytes outside 0..255 do not occur in the original; the JSON model allows them in a `char` and no branch depends on it.
- The WebSocket opening handshake, its leftover bytes, and messages split over several frames, which the client does not join.
- Callbacks that call back into the object they come from (a WebSocket handler that closes the socket inside a delivery); only the offer during which the peer reports failure is modelled, in `Sessions.Admit`.
- Durations are whole milliseconds, not doubles; 64-bit and `size_t` overflow is not modelled.
- Recorder: a playlist rewrite is assumed to succeed except in `RecordIndex.FailedRewriteBreaksIndex`, and counts as one step although a begun list is written entry by entry; the muxer, the queue in front of the writer thread and the uploader are not part of this model.
- Recorder.PlaylistMirrorsWindow: files present before the start are assumed to be named after their day directory, and fewer than 99 segments to start within one second, because `next_media_path` otherwise reuses the 99th name.
- Recorder.RotationsAreTimely: speaks of processed video frames, since audio timestamps do not steer rotation.
- RecordIndex.AllIndexesStaySound: a recorder object is started once, before it has a playlist, as src/protocol/record_plugin.cpp:49-52 makes a new one for each start; the other run theorems also cover restarts of one object.
- Demand: one start and one stop of the pipeline; a second start with subscribers left over from the first is not modelled. The encoder's stop may fail, and then it counts as on.
- Signaling: the random client id is a parameter that the room does not have yet; token checks, message validation, heartbeat timing and sizes appear only as the events they cause.
- Signaling.ReplacedMasterIsOut: is about the moment of replacement; the replaced client may join again before its socket closes.
- Recorder: a frame handed to the muxer counts as written whether or not the muxer reports success.
- FanOut: the encoder, the peer connection and the thread pool are abstract; a write into a peer always counts as done.
- FanOut: detections are part of the steps (a newer one replaces the older), without a method of their own.
- Configuration, HTTP plumbing, OSD, audio playback and all code that only calls the camera SDK would add only easy members.
