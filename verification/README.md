# tvproxy verification

A Dafny model of the parts of tvproxy whose correctness is not visible from one
function: the WireGuard failover pool, the hand-written protobuf writer, the
M3U printer and parser, the MPEG-TS header capture, the fan-out of one upstream
to many clients, recordings and their scheduler, the multi-tunnel manager, frame
ownership in the transcode pipelines, duplicate merging in the VOD library, the
tail reader of the commit log, and the arithmetic of VOD playlists.

`dafny verify dfyconfig.toml` checks the whole project.

## How it is organised

| file | models |
|---|---|
| `FailoverPool.dfy` | `pkg/session/wgpool.go`: the pool as a class, and runs of requests |
| `Wire.dfy`, `ProbeMessage.dfy` | `pkg/proto/write.go`: a decoder as the specification, the writers as methods |
| `M3U.dfy` | `pkg/service/output.go` (printer) and `pkg/m3u/parser.go` (parser) |
| `TSHeader.dfy`, `TSSections.dfy`, `TSPackets.dfy` | `pkg/media/tsheader.go`: capture and parsers; well-formed PAT and PMT sections; packets put together from their parts |
| `Fanout.dfy` | `pkg/service/proxy.go`: a step system in which every locked block is a step |
| `FanoutReach.dfy` | the same: which clients the loop can still reach |
| `Recording.dfy` | `pkg/service/vod_recording.go`: starts, stops and timers as interleaved steps |
| `Scheduler.dfy` | `pkg/service/scheduler.go`: the record store and the tick |
| `Tunnels.dfy` | `pkg/service/wireguard_multi.go`: the manager as a class |
| `Frames.dfy` | `PushVideo` in `pkg/session/gopipeline.go`: a log of frame events |
| `VodMerge.dfy` | the merge loop in `pkg/handler/stream.go` |
| `Tail.dfy` | `pkg/session/tail.go` against a growing file and seeks |
| `VodPlaylist.dfy` | `pkg/hls/playlist.go` in exact numbers |
| `Basics.dfy` | what several of them share |

Network, files, clocks, codecs and stores appear as parameters: functions or
lists that say what they answer. Every statement holds for all such answers.

## What the model shows about the code

- The start count of 1000 keeps the direct connection a last resort for exactly up to 1001 tunnels
  (`LastResortIff`), because the direct entry is added last and the sort is stable.
  That ends with its first answer: from then on it is tried first (`DirectComesFirst`).
- A stop or a timer names a channel and not a recording. A call that is left over from an earlier recording of the
  channel can therefore end the next one (`EndedByLeftOver`); `SurvivesIffClear` says exactly when that cannot happen.
- A client of a shared upstream looks its connection up and is appended in two separate locked blocks, and the loop finds its
  clients by channel. A client can therefore wait on a connection that nobody serves (`ListedInVain`); `HearsIff` and
  `JoinHeardIff` say exactly when.
- `removeClient` returns early if the map entry is gone. A client can therefore be written to after its handler has returned
  (`ServedAfterReturn`); `ReturnedHearsIff` says exactly when, and `LockedRemovalIsFinal` that no other removal has this effect.
- The record store changes its list before it saves it. A schedule request that reports a failed save has therefore stored its record,
  and later ticks treat it like any other (`FailedCreateIsLive`, `CreateFails`).
- `connectProfile` overwrites the map entry without closing what it held; `ConnectKeepsIff` says that this
  is safe exactly if the ID holds no open tunnel, and every caller sees to that.
- Bytes that arrive in the same read as the end of the stream are never scanned for a header. A header is lost by that exactly if
  the packet that completes it ends among them (`TailLostIff`, `TailLost`).
- If the PMT comes before the PAT, the PID that is waited for is the one the PAT announces for its first program, and not that of the
  video stream (`CompletingPid`, `PmtFirst`).
- In the header capture, the flag for collecting further packets and the branch that keeps a partial result on a read
  error are never reached: the first video packet that is stored ends the capture.
- An attribute value that ends in an attribute name and `=` is taken for that attribute by the M3U parser, unless the attribute
  itself comes first or the value is the last one of its line (`SeenIff`, `MisreadChannel`). Carriage returns inside values and blank
  lines around a URL do no harm (`ChannelReadIff`).
- An audio or subtitle track all fields of which are default, after the conversion of its numbers to 32 bits, is not written at all.

## Model

| member | source | states |
|---|---|---|
| FailoverPool.LastResortIff | pkg/session/wgpool.go:50-128 | for every number of tunnels and every start count of the direct entry: in all runs the direct entry is tried only after every tunnel failed in the same request, until it first answers, if and only if there are at most start + 1 tunnels |
| FailoverPool.DirectComesFirst | pkg/session/wgpool.go:60-103 | once the direct entry has answered it is tried first in the very next request, and is no last resort if there is any tunnel |
| FailoverPool.TunnelCountsStayRanked | pkg/session/wgpool.go:60-103 | in every run the i-th smallest tunnel count is at most i plus the number of requests that failed everywhere, and the direct count is 1000 plus that number |
| FailoverPool.RankedStep | pkg/session/wgpool.go:68-89 | one request keeps the rank invariant, counting one more lost request exactly if everything failed |
| FailoverPool.ServeShape | pkg/session/wgpool.go:60-89 | entries are tried in order of failures and age; those before the first answer gain one failure, the one that answers is reset, nothing else changes |
| FailoverPool.RequestMeans | pkg/session/wgpool.go:68-89 | the entries are tried up to the first attempt that is not rejected, that entry wins and its answer is the reply; without one, all are tried and there is no reply |
| FailoverPool.RejectedIff | pkg/session/wgpool.go:71-84 | only a transport error and a 403 send the request on |
| FailoverPool.TryOrderSpec | pkg/session/wgpool.go:60-66 | the insertion sort yields every entry once, ordered by failures and, among equals, by position |
| FailoverPool.StairRun | pkg/session/wgpool.go:68-103 | a run that drives the tunnel counts to 0, 1, 2, ..., k without the direct entry answering |
| FailoverPool.Pool.SortByFailures | pkg/session/wgpool.go:60-66 | the in-place sort of a copy arranges the entries in the order of trying |
| FailoverPool.Pool.Do | pkg/session/wgpool.go:50-90 | a request changes the counts as the request function says and replies with the first answer that is neither an error nor a 403, if there is one; an empty pool uses the default transport |
| FailoverPool.Pool.TryEach | pkg/session/wgpool.go:68-103 | the try loop over the sorted entries, with markFail and markSuccess |
| FailoverPool.Pool.AddProxy | pkg/session/wgpool.go:34-48 | a started proxy joins with its profile and count 0, a failed one changes nothing |
| FailoverPool.Pool.AddDirect | pkg/session/wgpool.go:113-128 | the direct entry joins with its ID and count 1000 if its proxy started |
| FailoverPool.Pool.PickEntry | pkg/session/wgpool.go:160-182 | the active profile's first entry, otherwise the entry that a request would try first |
| FailoverPool.Wire | cmd/tvproxy/main.go:255-262 | the start-up wiring gives the profiles whose proxy started, in order and with count 0, and then the direct entry with 1000 if its proxy started |
| FailoverPool.ServeAll | pkg/session/wgpool.go:50-103 | any sequence of requests moves the counts of the pool object as the run function says |
| Wire.VarintRoundTrip | pkg/proto/write.go:18-24 | decoding a written varint gives the value back for every 64-bit value, whatever follows |
| Wire.ParseAppend | pkg/proto/write.go:26-80 | appending to a well-formed message appends its records, and fails only if what is appended is malformed |
| Wire.ParseEncode | pkg/proto/write.go:26-70 | what the writers append parses back to one record for each non-default field, in order |
| Wire.LastIsWritten | pkg/proto/write.go:30-70 | what a reader finds of written fields is never a default value |
| Wire.AppendVarint | pkg/proto/write.go:18-24 | the loop appends the base-128 encoding |
| Wire.AppendInt | pkg/proto/write.go:39-53 | nothing for zero, otherwise tag and sign-extended varint |
| Wire.Int32Is | pkg/proto/write.go:39-45 | the conversion to int32 keeps the low 32 bits, with the highest one as the sign |
| Wire.AppendBytes | pkg/proto/write.go:30-37 | nothing for an empty string or message, otherwise tag, length and bytes |
| ProbeMessage.MarshalProbe | pkg/proto/write.go:82-145 | decoding the result gives the video fields, the selected audio track, all numbers as 32 or 64 bit, and the tracks in order without the all-default ones |
| ProbeMessage.ProbeRoundTrip | pkg/proto/write.go:82-145 | the same for the sequence of fields that is written |
| ProbeMessage.SeenFields | pkg/proto/write.go:82-145 | what the decoded probe holds, field by field |
| ProbeMessage.TrackFields | pkg/proto/write.go:147-165 | what a decoded track holds, field by field |
| ProbeMessage.AudioEmpty | pkg/proto/write.go:147-157 | a track's encoding is empty exactly if every field of it is default |
| ProbeMessage.AudioListSeen | pkg/proto/write.go:134-136 | the repeated field decodes to the tracks in order, only all-default ones missing |
| ProbeMessage.AudiosInOrder | pkg/proto/write.go:134-136 | the listed tracks are exactly those with a field that is not default, in order |
| ProbeMessage.SubtitleListSeen | pkg/proto/write.go:137-139 | the same for subtitle tracks |
| ProbeMessage.SubtitlesInOrder | pkg/proto/write.go:137-139 | the same for subtitle tracks |
| ProbeMessage.SelectAudio | pkg/proto/write.go:85-94 | the first track with the selected index, otherwise the first track, otherwise none |
| ProbeMessage.SelectedIs | pkg/proto/write.go:85-94 | which track that is |
| ProbeMessage.AppendMerges | pkg/proto/write.go:194-198 | decoding a message followed by another gives the first overridden by the non-default scalars of the second, with repeated fields concatenated |
| ProbeMessage.IntOverrideIff | pkg/proto/write.go:39-45 | a field of appended records overrides every earlier message if and only if they do not spell out its default |
| ProbeMessage.LongOverrideIff | pkg/proto/write.go:47-53 | the same for a 64-bit number |
| ProbeMessage.BoolOverrideIff | pkg/proto/write.go:55-61 | the same for a flag |
| ProbeMessage.BytesOverrideIff | pkg/proto/write.go:30-37 | the same for a string |
| ProbeMessage.MergesIff | pkg/proto/write.go:194-198 | a message merges into every earlier one if and only if none of its scalar fields ends on a record that spells out the default |
| ProbeMessage.WrittenHasNoDefaults | pkg/proto/write.go:30-70 | what the writers write never spells out a default, so it can be appended |
| ProbeMessage.EnrichProbe | pkg/proto/write.go:188-198 | enriching a well-formed probe sets the non-empty ones of four fields and leaves every other field |
| ProbeMessage.EnrichAllCorrect | pkg/proto/write.go:188-205 | after any number of enrichments every other field is intact and each enriched field has its latest non-empty value |
| ProbeMessage.LatestBytesIs | pkg/proto/write.go:188-198 | the latest string is the last one that is not empty, or what was there |
| ProbeMessage.LatestIntIs | pkg/proto/write.go:188-198 | the latest number is the last one that is not zero as 32 bits, or what was there |
| M3U.PlaylistRoundTrip | pkg/service/output.go:87-136 | parsing a generated playlist of readable channels yields in order one entry for each enabled channel that passes the filter, with its attributes, title and URL, no tvp attribute and no error |
| M3U.EntriesInOrder | pkg/service/output.go:102-114 | the entries are those of exactly the enabled channels that pass the group filter, in order |
| M3U.EntryFields | pkg/service/output.go:44-49 | what the entry of a channel holds, field by field |
| M3U.RenderedText | pkg/service/output.go:116-133 | the two printed lines, letter by letter |
| M3U.GroupNameIsLast | pkg/service/output.go:97-100 | a group title is the name of the last group with the ID |
| M3U.ChannelReadIff | pkg/service/output.go:109-133 | a channel is read back, whatever follows it, if and only if no value has a quote or line end, no value misleads the search for an attribute, its lines fit the buffer, and its URL is one line that does not start with # |
| M3U.ChannelParsed | pkg/m3u/parser.go:33-54 | the two lines of a channel are consumed and yield its entry, whatever follows |
| M3U.AttrsSeen | pkg/m3u/parser.go:82-94 | what a search for any name comes to in a line of attributes with any values: the value, or what follows a value that ends in the name and = |
| M3U.SeenIff | pkg/m3u/parser.go:82-94 | an attribute is read back, or found missing, if and only if no value before it, other than the last one, ends in its name and =, unless the text taken for its value happens to be that value |
| M3U.TitleSeenIff | pkg/m3u/parser.go:77-79 | a channel name is read back exactly if it has no comma and no surrounding white space |
| M3U.ParsedFields | pkg/m3u/parser.go:57-80 | the names under which the fields of an entry are looked for |
| M3U.LineMeans | pkg/m3u/parser.go:39-52 | which line starts an entry, which one completes it, and which ones do nothing |
| M3U.MisreadChannel | pkg/m3u/parser.go:82-94 | a channel whose tvg-id ends in the name of a tvp attribute and = gets a value for that attribute |
| M3U.Parse | pkg/m3u/parser.go:33-54 | the line loop computes the entries line by line, and stops at a line that does not fit the buffer |
| M3U.GenerateM3U | pkg/service/output.go:87-136 | the loop writes the header and the two lines of every listed channel |
| TSHeader.ExtractTSHeader | pkg/media/tsheader.go:35-121 | the result depends only on the bytes read before the read that ended or failed, however they were split |
| TSHeader.ScanAppend | pkg/media/tsheader.go:59-104 | scanning a buffer in two parts is scanning it at once |
| TSHeader.HeaderIsThreePackets | pkg/media/tsheader.go:64-121 | for every stream: a header is captured exactly if some packet completes the capture, and is the first PAT, the first PMT and the first completing packet |
| TSHeader.CompletingPid | pkg/media/tsheader.go:72-102 | the completing packet has the PMT's video PID if the PAT came first and the PMT lists one, otherwise the PID the PAT announces |
| TSHeader.CompletesIff | pkg/media/tsheader.go:72-102 | a packet completes the capture exactly if the first PAT and the first PMT are there by then, it has the PID that is waited for, and it starts a unit with an SPS in its payload |
| TSHeader.SPSInPayload | pkg/media/tsheader.go:87-90 | skipping the PES header finds no SPS that the whole payload does not hold |
| TSHeader.PmtFirst | pkg/media/tsheader.go:72-102 | three packets that give a header with the PAT in front and none with the PMT in front |
| TSHeader.PacketIsSlice | pkg/media/tsheader.go:59-66 | every packet is a whole slice of the input that starts with the sync byte |
| TSHeader.FirstSyncByte | pkg/media/tsheader.go:59-66 | each packet starts at the first sync byte behind the one before, and behind the last one there is none with a whole packet after it |
| TSHeader.TailLostIff | pkg/media/tsheader.go:46-57 | leaving the bytes of the last read unscanned changes the result if and only if the first packet that completes the capture ends among them |
| TSHeader.TailLost | pkg/media/tsheader.go:46-57 | a stream of three packets that gives no header if its last packet arrives with the end of the stream |
| TSHeader.HasNALType | pkg/media/tsheader.go:143-161 | true exactly if some start code 00 00 01 is followed by a header byte with the type in its low five bits |
| TSHeader.ParsePATForPMTPID | pkg/media/tsheader.go:163-194 | on every packet the loop ends inside it and returns the first program's PID |
| TSHeader.ParsePMTForVideoPID | pkg/media/tsheader.go:215-248 | on every packet the loop ends inside it and returns the first video stream's PID |
| TSSections.PatParsed | pkg/media/tsheader.go:163-194 | for every well-formed PAT with any adaptation field, pointer and stuffing: the PID of the first program that is not 0, or 0 |
| TSSections.PmtParsed | pkg/media/tsheader.go:196-248 | for every well-formed PMT with any descriptors and streams: recognised, and the PID of the first stream of type 0x1b, 0x24 or 0x02, or 0 |
| TSPackets.FieldsRead | pkg/media/tsheader.go:68-70 | PID and unit start flag are read as they were put into the header |
| TSPackets.PayloadFound | pkg/media/tsheader.go:123-133 | the payload is found behind any adaptation field that fits |
| TSPackets.SPSFoundIff | pkg/media/tsheader.go:87-90 | a packet counts as an SPS start exactly if its payload holds 00 00 01 and a byte of type 7 |
| TSPackets.TablePackets | pkg/media/tsheader.go:72-86 | which packets count as the PAT and as the PMT, with any adaptation field and pointer |
| TSPackets.CapturedBehindAdaptation | pkg/media/tsheader.go:35-121 | a stream whose video starts behind an adaptation field gives its header |
| Fanout.EveryRun | pkg/service/proxy.go:228-493 | in every interleaving each client was sent a contiguous run of the chunks that the loop of one upstream read, beginning with the first chunk handed out after it was last listed, bar a failed last write; a client on the live list was sent all of them up to the chunk in hand; done closed at most once; no client listed twice; a listed client that was not removed is on its list or done; an entry without clients is about to be deleted |
| Fanout.FetchedAreReads | pkg/service/proxy.go:396-404 | what the state records of a connection is exactly what the read steps of its loop delivered in the run, in order |
| Fanout.BeginsAtLastListing | pkg/service/proxy.go:228-264 | in every run a client belongs to the connection it was listed in last, and its share begins after the chunks handed out by then |
| Fanout.BeginStep | pkg/service/proxy.go:228-493 | no step but a join or an install changes where a client's share begins |
| Fanout.StepKeeps | pkg/service/proxy.go:228-493 | every step of join, install, write, notify, remove and cleanup keeps the invariant |
| Fanout.DroppedForever | pkg/service/proxy.go:407-417 | a client that has left the list is sent nothing more and its done is not closed again |
| FanoutReach.LockedRemovalIsFinal | pkg/service/proxy.go:471-482 | after a removal that got as far as the client list, the client is never sent anything nor told that it is done |
| FanoutReach.ReturnedHearsIff | pkg/service/proxy.go:459-482 | after its handler has returned, a client can still be written to or told that it is done if and only if the entry is gone and the loop holds a connection that lists it |
| FanoutReach.SkippedRemovalHearsIff | pkg/service/proxy.go:464-469 | a removal that finds no entry leaves the client within reach if and only if the loop is about to write to, or notify, a list with the client on it |
| FanoutReach.ServedAfterReturn | pkg/service/proxy.go:228-493 | a run in which a client is sent a chunk after its handler has returned |
| Fanout.ClosingDrops | pkg/service/proxy.go:407-457 | done is closed only in the locked step that takes the client off the live list |
| FanoutReach.LastRemovalDeletesEntry | pkg/service/proxy.go:471-493 | in every continuation after the locked removal of a connection's last client, that connection is out of the map or the client's handler is still on its way to take it out |
| FanoutReach.CleanupClearsEntry | pkg/service/proxy.go:484-493 | once a handler has run its cleanup, no connection made before can be in the map again, whatever steps follow |
| FanoutReach.HearsIff | pkg/service/proxy.go:390-457 | a client can still be served, or told that it is done, if and only if it is listed and the loop of its connection holds that connection or finds it in the map |
| FanoutReach.EndTellsEveryone | pkg/service/proxy.go:390-457 | however the loop ends, every client that was on its list has been told that it is done, unless it was removed itself or the entry was deleted by the cleanup of another |
| FanoutReach.ErrorEndsUpstream | pkg/service/proxy.go:434-457 | a failed read of a loop that is left alone: everyone on the list is told, the list is emptied, the entry is gone and another upstream can be installed |
| FanoutReach.GiveUpIsFinal | pkg/service/proxy.go:250-293 | a starter none of whose streams opened has returned for good |
| FanoutReach.NoReadAfterError | pkg/service/proxy.go:434-440 | after a failed read the loop does not read again |
| FanoutReach.LoopGoesOn | pkg/service/proxy.go:397-433 | the loop stops reading and writing only for a failed read or an empty list, as long as it finds its connection |
| FanoutReach.JoinHeardIff | pkg/service/proxy.go:228-239 | a client that joins is listed in vain if and only if the connection it looked up went out of the loop's reach before the append |
| FanoutReach.ListedInVain | pkg/service/proxy.go:228-291 | a run in which an upstream fails to open between the lookup and the append, and the joiner is never served nor told |
| Fanout.WriteLoop | pkg/service/proxy.go:406-417 | the write loop sends the chunk once to every listed client and keeps those whose write worked |
| Fanout.NotifyLoop | pkg/service/proxy.go:452-456 | the notify loop closes done once for every listed client |
| Fanout.RemoveLoop | pkg/service/proxy.go:471-477 | the removal loop takes out the first occurrence of the client |
| Recording.EveryRun | pkg/service/vod_recording.go:31-149 | under any interleaving a channel has at most one live recording, each is completed and its consumer removed at most once, the deadline of a live one is set or its call waits, no timer is armed once a stop has got past it, and with no stop half done the recording viewers are the consumers in the map |
| Recording.StepKeeps | pkg/service/vod_recording.go:31-149 | every step keeps map, activity list and recordings consistent |
| Recording.SurvivesIffClear | pkg/service/vod_recording.go:93-128 | a recording is ended by nothing but its own deadline and manual stops of its channel if and only if nothing is left over from an earlier one |
| Recording.QuietMeansClear | pkg/service/vod_recording.go:122-149 | with no stop half done and no call waiting, every live recording survives everything but its own deadline and manual stops of its channel |
| Recording.DeadlineEnds | pkg/service/vod_recording.go:93-96 | a deadline that fires while its recording is live makes a call that takes it |
| Recording.EndedByLeftOver | pkg/service/vod_recording.go:93-128 | a run in which a recording is started while a stop of the one before it still waits, and can be ended by it |
| Recording.RecordingService.StartRecording | pkg/service/vod_recording.go:31-116 | a start fails if the channel is recording or has no session, and otherwise adds recording, timer and viewer |
| Recording.RecordingService.StopRecording | pkg/service/vod_recording.go:122-149 | an uninterrupted stop completes the recording once if there is a session, disarms its timer, removes viewer and consumer, and touches no other recording |
| Scheduler.EveryRun | pkg/service/scheduler.go:53-211 | over every run no two live records of one user and channel overlap, and completed and failed records never change status |
| Scheduler.TickClears | pkg/service/scheduler.go:135-189 | a tick at time t leaves no pending record due by t and no pending or recording record that stops before t, whatever is saved, started or lost on the way |
| Scheduler.TickOutcome | pkg/service/scheduler.go:135-211 | what becomes of every record in a tick |
| Scheduler.StoredIff | pkg/service/scheduler.go:72-82 | a request leaves its record in the list if and only if it succeeds or its only error is that the list was not saved |
| Scheduler.FailedCreateIsLive | pkg/store/scheduled_recording.go:60-74 | after a request that failed because the list was not saved, the same request is refused as a conflict, and a tick that finds the record due and can start it does so |
| Scheduler.CreateFails | pkg/store/scheduled_recording.go:60-74 | a request with that error whose record is pending afterwards |
| Scheduler.SchedulerService.UpdateStatus | pkg/store/scheduled_recording.go:151-169 | the list in memory is changed whether it is saved or not |
| Scheduler.TickKeeps | pkg/service/scheduler.go:135-189 | a tick keeps IDs distinct and live records apart |
| Scheduler.SchedulerService.Tick | pkg/service/scheduler.go:135-211 | the loops over copies of the list, with updates and deletions by ID, move every record on its own |
| Scheduler.SchedulerService.StartRecording | pkg/service/scheduler.go:191-211 | the record is marked, and the recording service is asked to start exactly if the mark was saved |
| Scheduler.SchedulerService.Schedule | pkg/service/scheduler.go:53-95 | the checks in order; then the new record, which is started at once if it was saved and is due within the lead time |
| Scheduler.ScheduleErrors | pkg/service/scheduler.go:53-82 | which requests are refused, and why |
| Scheduler.Scheduled | pkg/service/scheduler.go:82-95 | when a new record is pending, recording or failed |
| Scheduler.SchedulerService.Delete | pkg/service/scheduler.go:97-115 | an existing record is removed by its user or an administrator only, even if that is not saved, and its recording is stopped if it is running |
| Tunnels.RunOperations | pkg/service/wireguard_multi.go:51-471 | after every sequence of operations the active ID names an open tunnel and every tunnel ever opened is held once or closed once; after a sync the keys are the enabled profiles and the active one the first usable; after the start, and after a sync that follows a stop, entries and active profile are those that connecting gave |
| Tunnels.Manager.Start | pkg/service/wireguard_multi.go:51-69 | every enabled profile has an entry, with a healthy tunnel exactly if connecting worked, and the first such one is active |
| Tunnels.ConnectKeepsIff | pkg/service/wireguard_multi.go:122-165 | connecting keeps the invariant if and only if the ID holds no open tunnel |
| Tunnels.DisconnectKeeps | pkg/service/wireguard_multi.go:167-181 | disconnecting keeps the invariant and closes the tunnel once |
| Tunnels.Manager.SyncProfiles | pkg/service/wireguard_multi.go:433-471 | the keys are exactly the enabled profiles, kept entries are unchanged, new ones have a healthy tunnel exactly if connecting worked, and the active one is the first usable in list order |
| Tunnels.Manager.SelectBestActive | pkg/service/wireguard_multi.go:183-210 | the first enabled, connected, healthy profile in list order becomes active, or none |
| Tunnels.Manager.RunHealthChecks | pkg/service/wireguard_multi.go:251-280 | checked profiles get their result, others keep theirs, no tunnel is opened or closed |
| Tunnels.Manager.ReconnectProfile | pkg/service/wireguard_multi.go:420-431 | the old tunnel is closed before the new one is opened |
| Tunnels.Manager.Stop | pkg/service/wireguard_multi.go:110-120 | no entry and no active profile is left and every tunnel ever opened was closed exactly once |
| Frames.PushVideo | pkg/session/gopipeline.go:734-807 | for any number of frames and an error at any stage, every frame handed out is freed exactly once and not used afterwards; the first error is returned, and each stage was given exactly the frames that get as far |
| Frames.PushFrame | pkg/session/gopipeline.go:762-804 | one frame through deinterlacer, scaler, encoder and muxer; on an error the waiting frames are freed too |
| Frames.CleanMeans | pkg/session/gopipeline.go:1170-1242 | in a clean log every frame is freed exactly once and nothing happens to it after that |
| VodMerge.Merge | pkg/handler/stream.go:517-537 | the loop with its index computes one entry for each key in order of first appearance, and keeps every item |
| VodMerge.MergeMeans | pkg/handler/stream.go:497-537 | one entry for each distinct key, each primary the earliest item of maximal score among the items with its key, and primaries and alternates together hold every item as often as it came in |
| VodMerge.AlternatesInOrder | pkg/handler/stream.go:521-526 | the alternates of an entry are, in order, the worse one of each further item and the best one before it |
| VodMerge.ItemValues | pkg/handler/stream.go:497-515 | the weights of the score and the fields of an alternate |
| VodMerge.PrimaryIsBest | pkg/handler/stream.go:497-530 | the item in front is the earliest of maximal score in its group |
| VodMerge.GroupKept | pkg/handler/stream.go:521-530 | an entry holds each item of its group once |
| Tail.EveryRun | pkg/session/tail.go:17-50 | in every interleaving delivered offsets strictly increase, no byte is delivered twice, only jumps to the end of the file for new seek versions skip bytes, and without seeks what was delivered is a prefix of the file |
| Tail.CallDelivers | pkg/session/tail.go:25-36 | a call without a new seek version can return any number of the bytes that are there and fit |
| Tail.CallAfterSeek | pkg/session/tail.go:27-30 | a call with a new seek version goes to the end of the file first |
| Tail.CallAtEnd | pkg/session/tail.go:36-49 | what a call does at the end of the file |
| Tail.Created | pkg/session/tail.go:17-23 | where a new reader starts |
| Tail.ReadsAfterLook | pkg/session/tail.go:25-32 | the file is read only right after a look at the seek version |
| Tail.CallReturnsOnly | pkg/session/tail.go:32-49 | for what reasons a call returns |
| Tail.JumpsToTheEnd | pkg/session/tail.go:17-36 | a step that moves the reader hands out the bytes it passes or takes it to the end of the file as it then is, for a version it has not jumped for |
| Tail.StepKeeps | pkg/session/tail.go:17-50 | every step of writer, seeker and reader keeps the events chained |
| Tail.TailReader.Read | pkg/session/tail.go:25-50 | a call reads from the end the file had in the last round with a new seek version, or from where it was; it returns bytes of the file from there, a failure, the end if the session is done, or a cancellation if the caller has gone, and polls only while there is nothing to read |
| VodPlaylist.GenerateVODPlaylist | pkg/hls/playlist.go:10-52 | segment i starts at i times the segment length, all are whole but for a last one longer than a tenth of a second, and the target duration is the segment length |
| VodPlaylist.PlaylistCovers | pkg/hls/playlist.go:10-52 | segments are contiguous from tick 0, none exceeds the target duration, and the total falls short of the duration by at most 10^6 ticks and never exceeds it |

## Left out

- Concurrent requests in the failover pool, a channel's old reader loop that outlives the start of a new one, and completeness of the tail at the end of a stream: the code does not order these steps.
- Overflow of failure counts and wrap-around of the seek version at 2^64: both are unbounded numbers here.
- Fanout.EveryRun: speaks of runs in which a channel's upstream is installed only when no other one is being opened and the previous loop has returned.
- Fanout.StepKeeps: one channel; the steps of other channels touch other keys of the map.
- TSHeader.ExtractTSHeader: the variables for collecting further packets are not modelled, because they are never used before the capture ends.
- Protobuf groups, UTF-8 validity of strings and the signal message with its floating-point numbers: a message with groups counts as malformed here.
- Scheduler.SchedulerService.Delete: the removal of the recorded file.
- Scheduler.SchedulerService.Schedule: the branches for list queries that fail, which the store never takes.
- Scheduler.EveryRun: a restart, which goes back to the list that was saved last.
- Recording.EveryRun: what a session does with its consumers is not modelled; completion needs a session, which may be gone.
- VodMerge.Merge: lower-casing is any function, and fields that the loop only copies are dropped.
- VodPlaylist.GenerateVODPlaylist: floating-point rounding and the text of the playlist.
- M3U.PlaylistRoundTrip: invalid UTF-8.
- Frames.PushVideo: encoded packets and audio frames; the three pipelines differ only in how packets are written.
- Legacy configuration, exit IPs, HTTP handlers, other stores, discovery and process control: input, output and field copying.
