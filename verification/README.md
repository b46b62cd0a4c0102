# Verification of toktop's live-event broker, ingest and parsers

A Dafny model of the parts of toktop where correctness rests on an order of events, an
interleaving or an exact account, with proofs of what those parts promise. Check it
with `dafny verify dfyconfig.toml`.

Concurrent protocols are step systems: a datatype of states, one event per atomic
operation (a lock section, a load, a compare-and-swap, a channel operation), an `Enabled`
predicate and an `Apply` function. A run is any sequence of enabled events, and the main
results quantify over all runs. Objects that the source updates in place are classes whose
methods are proved against the same functions the theorems speak about. Code between two
reads of shared state is modelled with an `Interfere` method that may do anything the rest
of the program may do.

## Components

- **Live-event broker** (`Broker`, `BrokerInvariants`, `BrokerDurability`, `BrokerTheorems`,
  `BrokerNotices`, `BrokerProgress`, `BrokerResume`): Emit, the background persister, the
  replay-gap mark, retention, subscription, the reconnect replay and the live tail, within one
  server lifetime. The replay lock is held per batch, as the code does, not for the whole walk
  as the comment at `internal/httpapi/server.go:76` says. `EventHub` holds the subscriber set
  and the mark's compare-and-swap loop as classes, `Replay` the replay loop against a changing
  log, `EventLog` and `EventKeys` the bbolt store and its key codec, `EventIDs` the textual
  ids.
- **Live session state** (`LiveState`, `LiveSessions`): the last-writer fold, startup from a
  snapshot and the log's tail, eviction, the lazily rebuilt index and the overlay.
- **Incremental ingest** (`Batching`, `StreamPipeline`, `IngestStore`, `Incremental`,
  `Parents`): partition and batching, the producer/writer pipeline, the store's
  transactions, fingerprint skipping while files change, and the parent-link fixpoint.
- **Claude Code turn builder** (`ToolResults`, `TurnBuilding`, `Scripts`, `SessionParsing`):
  token accounting and tool-result matching. `Scripts` reads off the lines alone what each
  turn of a transcript holds; `SessionParsing` proves the parser against it.
- **Codecs and bounded queues** (`LineReader`, `Sse`, `SseBytes`, `EventStream`, `ClipText`,
  `Spool`, `RunLoop`).

`Records`, `Text`, `Bytes`, `Utf8` and `Wrappers` hold what they share.

## Where the code promises less than it seems to

- A client that presents an id above the watermark (one this lifetime has not published) is
  not told, and is handed records at or below that id once they are published.
  `ResumeAboveWatermark` gives the exact condition, as it stands when the client subscribes,
  `AnUnknownIdIsServed` a run.
- A snapshot more than 10000 ids behind the log loses a session whose newest record lies in
  the skipped range. `StaleSnapshot` gives the exact condition on the records, and
  `LongLogWithoutSnapshot` that of a long log without a snapshot; `StaleSnapshotLoses` is a
  log that fails it.
- A file whose read fails once keeps its error row under its current fingerprint, and later
  full runs skip it. `RightExactlyWhenRead` gives the exact condition, `AFailedReadSticks`
  a run.
- After a resume the dirty files can be left without a timer. `StrandedExactlyWhenFull` gives
  the exact condition, `AResumeCanStrand` a run.

## Model

| member | source | states |
|---|---|---|
| BrokerTheorems.GaplessReconnect | internal/httpapi/sse.go:68-165 | over every run, a client resuming at or below its watermark that got no notice has been handed a prefix of the published records above its id, in increasing order; while registered only its buffered records are outstanding, and if its channel was closed under it, all were handed |
| BrokerTheorems.HandedIsPublished | internal/httpapi/sse.go:68-165 | a registered, drained client without a notice holds a record if and only if it was published above its resume id |
| BrokerTheorems.HandedInTwoRuns | internal/httpapi/sse.go:258-328 | notice or not, the replayed records are a prefix of those between resume id and watermark and the tailed ones a prefix of those above, so a notice stands for one gap |
| BrokerNotices.NoticesAreTrue | internal/httpapi/sse.go:258-339 | over every run a client gets at most one notice about its replay, and what it says stays true: pruned, missing and hole name the first id it was not handed, which is not in the log and never will be; a gap mark names a lost id of its range beyond what it was handed; not_durable comes before any replayed record; the overflow's notice is the last |
| BrokerNotices.NotDurableNamesTheFirst | internal/httpapi/sse.go:269-275 | not_durable names the first id above both the client's and durableID |
| BrokerResume.ResumeAboveWatermark | internal/httpapi/sse.go:95-127 | in every reachable state, a client that subscribes has its promise kept by every continuation if and only if its id is at most the watermark, or no id up to it can be published any more (the server is closing, or the sequence has passed it and none is about to be published) |
| BrokerResume.AnUnknownIdIsServed | internal/httpapi/sse.go:95-127 | a run from an empty log in which a client that resumes from id 5 is handed record 1 without a notice |
| BrokerTheorems.ChannelsNeverPanic | internal/httpapi/sse.go:167-227 | over every run no channel is sent on or closed after it was closed, none exceeds its buffer, registered means open, and a client dropped for overflow is told |
| BrokerTheorems.GapMarkInvariant | internal/httpapi/server.go:407-426 | in every reachable state durableID is at most lastPublishedID, which is at most eventSeq; every record in the log is at or below durableID, but for one the persister has just written; every published record is in the log, on its way there, pruned, or at or above the mark (or its marker is still at work); the mark names a published record that is in neither |
| BrokerTheorems.NoNeedlessResync | internal/httpapi/sse.go:258-328 | a replay whose range is durable and stays in the log along the run is never answered with a gap notice |
| BrokerTheorems.RetainedReplayIsServed | internal/httpapi/sse.go:95-127 | the same from the moment a resuming client subscribes, if the persister is not between a write and its account: that the range is durable then follows from its being in the log; once tailing the client has been caught up |
| BrokerDurability.LogIsDurable | internal/httpapi/server.go:407-426 | over every run, everything published that is neither pending nor lost has been covered by durableID, but for the record just written; what is pruned is out of the log; and with nothing pending and the newest record not lost, durableID is lastPublishedID |
| BrokerDurability.PublishedIsEmitted | internal/httpapi/live.go:207-261 | over every run the n-th event emitted gets the n-th id after the log's last one and is published under it, in order, unless it is about to be or failed to marshal; nothing else is published |
| BrokerDurability.LossHasACause | internal/httpapi/server.go:407-504 | over every run without a failed write or a full queue nothing is lost, the mark is never set, and once nothing is pending everything published is durable |
| BrokerProgress.AServerCanClose | internal/httpapi/server.go:271-285 | from every reachable state the server can be closed: the emission under way ends, the persister writes out what is queued and stops, every channel is closed, and no record on its way is lost unless it finds the queue full |
| BrokerProgress.AReplayCanFinish | internal/httpapi/sse.go:95-165 | from every reachable state a replaying handler can finish by its own steps: it ends tailing, caught up or with a notice |
| BrokerProgress.ARetainedReplayFinishes | internal/httpapi/sse.go:258-328 | and if its range is durable and in the log, it ends with exactly the published records of the range and no notice |
| BrokerProgress.ATruncatedReplayIsTold | internal/httpapi/sse.go:283-300 | a prune between a replay's look at the mark and its read leaves exactly the records above the last one deleted, and a client whose next record is among those is told that it was pruned |
| BrokerProgress.AHandlerCanEnd | internal/httpapi/sse.go:213-227 | from every reachable state a handler can end: it keeps what it was handed, a failed read is told, its channel is closed and no longer registered, and nobody else's changes |
| BrokerProgress.ABurnedIdIsNeverPublished | internal/httpapi/live.go:231-247 | an emission that cannot be marshalled takes its id with it: no later run publishes a record under it |
| BrokerInvariants.StepInv | internal/httpapi/live.go:207-261 | every step of Emit, persister, retention, subscription, handlers and close keeps the invariant the theorems rest on |
| BrokerInvariants.StepKeepsMark | internal/httpapi/server.go:472-504 | every lost id stays at or above the mark or in a marker's hands, across racing markers |
| BrokerInvariants.AppendKeepsPipe | internal/httpapi/server.go:407-426 | whether or not the durable append succeeds, log and pending records stay in id order and none is both lost and present |
| EventHub.EventHub.PublishEvent | internal/httpapi/sse.go:167-198 | the watermark follows the id; each subscriber is offered the event once, and exactly those without room are marked, removed and closed |
| EventHub.EventHub.SubscribeEvents | internal/httpapi/sse.go:203-211 | admitted if and only if the set is below its cap, and then registered with the current watermark |
| EventHub.EventHub.UnsubscribeEvents | internal/httpapi/sse.go:220-227 | the channel is closed exactly if it was still registered |
| EventHub.EventHub.CloseSubscribers | internal/httpapi/server.go:276-281 | every registered channel is closed once and the set is empty |
| EventHub.MarkCell.MarkReplayGap | internal/httpapi/server.go:491-504 | whatever other markers do in between, it terminates, never raises the mark and ends with one at or below the id |
| EventHub.MarkCell.ReplayGapInRange | internal/httpapi/server.go:506-515 | reports the mark exactly when it lies in the range |
| Replay.ReplayServer.WriteReplayEvents | internal/httpapi/sse.go:258-328 | with appends, prunes and marks going on around it, terminates having examined consecutive ids from after+1, each as logged; nil means all up to until; every other exit names the first id not examined or a marked one beyond it, and not_durable comes only from a wait that ended on a durableID below until, with the first id above both after and the durableID then read; what is written is what was examined, filtered; undisturbed and without failures it answers the mark if it lies in the range, else not_durable exactly if durableID is below until, else nil exactly if the log holds the whole range, else the first id it lacks |
| Replay.ReplayServer.WaitDurable | internal/httpapi/sse.go:244-256 | the answer is whether the last durableID read reaches until; a negative one comes only after a cancellation or 40 polls |
| Replay.ReplayServer.ReplayGap | internal/httpapi/sse.go:330-339 | carries the missing id, and the oldest surviving id or, on an empty log, the missing one |
| EventLog.BoltStore.AppendWithID | internal/eventlog/bbolt.go:69-112 | refuses id 0 and an empty type; a success puts the record in its place, at the end for a new greatest id; a failure changes nothing |
| EventLog.BoltStore.LastID | internal/eventlog/bbolt.go:114-137 | the last record's id, 0 on an empty log |
| EventLog.BoltStore.MinID | internal/eventlog/bbolt.go:139-162 | the smallest id in the log, 0 on an empty one |
| EventLog.BoltStore.ReplayRange | internal/eventlog/bbolt.go:164-213 | exactly the records of the range in id order, cut at the limit |
| EventLog.BoltStore.Prune | internal/eventlog/bbolt.go:215-297 | deletes exactly the longest oldest prefix of records below the keep floor and older than the age limit |
| EventLog.PruneKeepsSuffix | internal/eventlog/bbolt.go:215-297 | such a prune keeps the newest min(keepN, size) records, the last id, gaplessness, and every record within the age limit |
| EventLog.BoltStore.SaveLiveSnapshot | internal/eventlog/bbolt.go:299-327 | replaces the stored snapshot and its watermark |
| EventLog.BoltStore.LoadLiveSnapshot | internal/eventlog/bbolt.go:329-368 | the stored snapshot, or none if either bucket is missing |
| EventLog.OrderedIsByteOrder | internal/eventlog/bbolt.go:374-383 | a bucket in byte order is a log in id order and conversely |
| EventKeys.KeyRoundTrip | internal/eventlog/bbolt.go:374-383 | an id survives its encoding as a key |
| EventKeys.IdRoundTrip | internal/eventlog/bbolt.go:374-383 | a key survives its decoding |
| EventKeys.KeyOrder | internal/eventlog/bbolt.go:374-378 | keys compare as bytes exactly as their ids compare as numbers |
| EventIDs.IDRoundTrip | internal/httpapi/sse.go:353-366 | a client that sends an event's id back is understood as that id |
| EventIDs.ParseAccepts | internal/httpapi/sse.go:353-359 | accepted are exactly the texts of digits whose number fits 64 bits, as that number |
| LiveState.FoldIsLatest | internal/httpapi/live.go:247-281 | the cached state of a session is a record of it, every record of it seen is earlier, or at the same instant with an id no greater, and nothing else is cached |
| LiveState.FoldIgnoresOrder | internal/httpapi/live.go:263-281 | the fold depends on which records were seen, not on their order or repetition |
| LiveState.RefoldChangesNothing | internal/httpapi/live.go:88-115 | folding records that were already folded changes nothing |
| LiveState.StatesHaveDistinctIds | internal/httpapi/live.go:231-247 | cached states of different sessions have different event ids |
| LiveState.LoadedIsFullFold | internal/httpapi/live.go:49-116 | a snapshot at watermark w plus the log's tail is the fold of everything when the log has moved on by at most 10000 ids |
| LiveState.LoadedWithoutSnapshot | internal/httpapi/live.go:49-116 | without a snapshot the load is the fold of a log of at most 10000 ids |
| LiveState.FoldWithout | internal/httpapi/live.go:82-115 | leaving records out of a fold is harmless if and only if for each of them that names a session a record of that session stays that it does not supersede |
| LiveState.StaleSnapshot | internal/httpapi/live.go:82-115 | past 10000 ids the load is the full fold if and only if for each skipped record that names a session the snapshot's or the recent records hold one of that session that it does not supersede |
| LiveState.LongLogWithoutSnapshot | internal/httpapi/live.go:82-115 | the same without a snapshot, for the recent records alone |
| LiveState.StaleSnapshotLoses | internal/httpapi/live.go:82-115 | a log of two records for which it is not |
| LiveSessions.LiveSessionCache.Record | internal/httpapi/live.go:247-253 | Emit's update is the fold's step and leaves the cached index, if any, that of the map |
| LiveSessions.LiveSessionCache.LoadLiveState | internal/httpapi/live.go:49-116 | loads exactly the fold of the snapshot and the bounded tail |
| LiveSessions.LiveSessionCache.PruneLiveSessions | internal/httpapi/live.go:126-144 | evicts exactly the states older than the cutoff, counts them, and drops the index if there were any |
| LiveSessions.LiveSessionCache.LiveSnapshotForRead | internal/httpapi/live.go:342-379 | the returned index is that of the current map: each state once, and under each id and path exactly the positions a scan finds |
| LiveSessions.PickFor | internal/httpapi/live.go:381-435 | through the index a row gets the state a scan over all live sessions would pick |
| LiveSessions.NaivePickIsUnique | internal/httpapi/live.go:381-435 | with distinct event ids that pick is unique, whatever the map order |
| LiveSessions.KeysTellSessionsApart | internal/httpapi/live.go:322-329 | two events have the same key if and only if they name the same source and session, when no source holds the separator |
| LiveSessions.KeyIsNamed | internal/httpapi/live.go:322-329 | an event has a key if and only if it names a source and a session |
| LiveSessions.LiveSessionCache.OverlayLiveSessions | internal/httpapi/live.go:381-494 | every row shows, field by field, the matching state that is latest by instant and then id, or is unchanged if none matches; exactly the matching unclaimed states are appended, each once, on the first page or with overflow |
| Text.TrimSpaceDrops | internal/textutil/textutil.go:19-27 | trimming, on which keys and matches rest, drops exactly the white space at both ends |
| Batching.PartitionByFingerprint | internal/collector/pipeline.go:64-83 | the changed are, in order, those not known under their current fingerprint; the fingerprints are those of exactly the candidates that have one |
| Batching.ChunkBySize | internal/collector/pipeline.go:26-47 | the batches concatenate to the items, none is empty, only a single item exceeds the cap, and none is closed early |
| StreamPipeline.PipelineIsSafe | internal/ingest/stream.go:29-106 | in every interleaving: never stuck, at most 4 events a batch and 5 more, the writer has stopped and its signal is read on return, the error is the parser's, else the sink's, else nil, and the sink saw a prefix of metadata and batches, all of it on nil |
| StreamPipeline.StepInv | internal/ingest/stream.go:66-106 | every step of producer and writer keeps what the sink has seen aligned with what was handed over |
| StreamPipeline.SomeoneCanMove | internal/ingest/stream.go:66-106 | until the call returns one of the two goroutines can move |
| StreamPipeline.EveryFaultIsReported | internal/ingest/stream.go:29-106 | for every call, success and each failure (of the metadata, its write, the parse or the write of any one batch) can happen, and returns its error with exactly what precedes it sunk |
| StreamPipeline.StreamSessions | internal/ingest/stream.go:14-106 | under any scheduler the call returns; without an error the sink saw the metadata and, batch by batch, exactly the changed sessions in order |
| IngestStore.Store.DeleteSourceFiles | internal/store/sqlite/ingest.go:48-68 | the files leave no row and no fingerprint, in chunks of 400; other sources are untouched |
| IngestStore.Store.DeleteTables | internal/store/sqlite/ingest.go:239-265 | each table loses exactly this source's rows of the files |
| IngestStore.Store.UpdateIngestOffsets | internal/store/sqlite/ingest.go:327-388 | a fingerprint is stored for exactly the processed files that have one |
| IngestStore.Store.SaveIngest | internal/store/sqlite/ingest.go:70-176 | in one transaction the processed files get exactly the batch's rows and the run's fingerprints; other sources are untouched |
| IngestStore.PurgeVanished | internal/ingest/ingest.go:48-70 | deletes exactly the known files that were not fingerprinted in the run and no longer exist |
| Incremental.SkippingIsSound | internal/ingest/driver.go:160-193 | over every run of writes, removals, full runs, single-file runs and failures, a stored fingerprint that is the file's current one implies the stored rows are the parse of its current content, or, exactly if they were left by a failed read, its error row, and that read was of this very version |
| Incremental.CompletedFullRun | internal/ingest/ingest.go:19-70 | a full run that completes over quiet files gives every discovered file its own rows and current fingerprint, leaves no row, fingerprint or error row of known files that are gone, and moves nothing else |
| Incremental.SingleFileRun | internal/ingest/driver.go:160-193 | a single-file run whose file is there and does not change, whatever writers do to other files meanwhile, ends with that file's rows the parse of its content, its fingerprint the current one and no error row, and everything of other files as it was; a blank file leaves the store as it was |
| Incremental.AFullRunCanBeMade | internal/ingest/ingest.go:19-70 | from every reachable state, once the ingest under way has failed, a full run over any sessions can be begun on the store as it is and completed over quiet files, with no file that is there unread |
| Incremental.AVanishedFileIsPurged | internal/ingest/ingest.go:48-70 | a file with a stored fingerprint that is removed, at any time, leaves nothing in the store after such a run, whatever it discovers |
| Incremental.RightExactlyWhenRead | internal/ingest/driver.go:105-112 | such a run leaves a discovered file with the parse of its content if and only if it reads it and the read succeeds, or it skips it and the rows stored when it began were not left by a failed read; otherwise a read of this very version has failed |
| Incremental.IncrementalEqualsFromScratch | internal/ingest/ingest.go:19-70 | two completed runs over the same quiet files leave the same rows for a file both discovered, whatever their stores held before |
| Incremental.AFailedReadSticks | internal/ingest/driver.go:107-112 | a run in which one failed read leaves its error row under the current fingerprint and the next full run skips the file |
| Incremental.StepInv | internal/ingest/stream.go:26-106 | every step keeps the link between fingerprints taken, rows in hand and rows stored |
| Parents.Sessions.Pass | internal/store/sqlite/ingest.go:502-519 | one UPDATE, in any row order and reading old or in-place rows, links each row soundly, and links something unless nothing is resolvable |
| Parents.Sessions.ResolveSubagentParents | internal/store/sqlite/ingest.go:501-543 | terminates on every table, leaves no resolvable row, links exactly the least set closed under the rule, each row to another one of its source that it names, the first top-level one by created_at and id if there is one and else a linked subagent, keeps a grounded table grounded, and changes nothing where nothing is resolvable, as after a first run |
| Parents.FirstCandidate | internal/store/sqlite/ingest.go:503-510 | the candidate that comes first by is_subagent, created_at and id |
| Parents.FixpointIsClosed | internal/store/sqlite/ingest.go:528-541 | when no row is resolvable the eligible rows are closed under the rule |
| Parents.GroundedChainsEnd | internal/store/sqlite/ingest.go:480-500 | in a grounded table the chain of every linked subagent ends at a top-level row |
| ToolResults.SettledCallsAreFinal | internal/parser/claudecode/parser.go:380-443 | in a finished turn with distinct use ids and one result per id every call is as recorded, completed by the result that names it if there is one |
| ToolResults.OfferTaken | internal/parser/claudecode/parser.go:326-330 | a result that finds its pending call is taken by it and by no other |
| ToolResults.OfferRefused | internal/parser/claudecode/parser.go:331-343 | a result without a use id, or whose call has a result, is reported |
| ToolResults.PendingTaken | internal/parser/claudecode/parser.go:380-390 | a waiting result whose call has come is taken exactly once |
| TurnBuilding.TurnBuilder.RecordInvocation | internal/parser/claudecode/parser.go:251-295 | a line of a message seen in this turn extends its invocation; any other opens one, with the message's usage unless an earlier turn has had it; every entry for this turn points at an invocation of it |
| TurnBuilding.TurnBuilder.RecordAssistantMessage | internal/parser/claudecode/parser.go:233-321 | records the line's tool calls behind the turn's and keeps tokens the sum of the invocations |
| TurnBuilding.TurnBuilder.ResolveToolCall | internal/parser/claudecode/parser.go:412-432 | with a use id the pending call indexed under it and no other; without one the first pending call |
| TurnBuilding.TurnBuilder.AttachToolResults | internal/parser/claudecode/parser.go:323-344 | every result of the line is taken, kept or reported |
| TurnBuilding.TurnBuilder.ResolvePendingResults | internal/parser/claudecode/parser.go:380-390 | what stays waiting could not be taken by any call |
| TurnBuilding.TurnBuilder.Finish | internal/parser/claudecode/parser.go:434-454 | the turn's record: tokens the sum of its invocations, long-lived cache writes within the total, failed if and only if a call failed, and the results that found no call |
| TurnBuilding.RepeatsAreFree | internal/parser/claudecode/parser.go:239-277 | repeating a line of a message seen before, anywhere later, leaves the session's tokens as they are |
| Scripts.TurnsUsage | internal/parser/claudecode/parser.go:239-277 | dealt out to the turns their lines go to, the usage of the first line of each message id and of every line without one adds up to the transcript's |
| Scripts.RecordingDetermines | internal/parser/claudecode/parser.go:280-320 | which calls a turn has, and under which invocations, depends on its assistant lines alone, but for the line numbers they refer to |
| SessionParsing.ParseEvents | internal/parser/claudecode/parser.go:29-169 | for every transcript: one turn per prompt, notification or leading assistant line, with the texts, times, usage, invocations, tool calls and offered results of exactly the lines that go to it; the session's tokens are, field by field, the usage of the first line of each message id and of every line without one, and the sum of the turns'; every tool_result ends as one applied result or one parse error; every line that does not decode is reported once; each turn's calls are final |
| SessionParsing.FinalCalls | internal/parser/claudecode/parser.go:323-443 | a turn records one call per tool_use of its lines, in order, each with that use's fields and either no result or those of a result of its lines that names it or nothing; with distinct use ids and one result per id each is completed exactly by the result of its lines that names it |
| SessionParsing.InterleavingIsIrrelevant | internal/parser/claudecode/parser.go:323-390 | two transcripts with the same assistant lines in a turn, and the same results in any order and place between them, parse to the same tool calls of that turn, but for the line numbers these refer to, if its use ids are distinct and it has one result per id |
| SessionParsing.FinalizeSession | internal/parser/shared/shared.go:151-167 | the session's tokens and call count are the sums over its turns |
| LineReader.ReadJSONLLines | internal/collector/scanutil.go:153-202 | however the reader cuts the content into fragments, the visits are exactly those of the line specification, or a prefix of them if reading breaks |
| LineReader.Reader.ReadSlice | internal/collector/scanutil.go:171-183 | bytes through the next newline, or a front of them when the buffer fills, the content ends or reading breaks |
| LineReader.VisitsAreOk | internal/collector/scanutil.go:184-197 | visits are numbered consecutively, start at true line starts, and the content there begins with the visited line |
| LineReader.VisitsAreComplete | internal/collector/scanutil.go:184-197 | the visited offsets are exactly the starts of lines that are not blank |
| LineReader.VisitsIncrease | internal/collector/scanutil.go:184-197 | no line is visited twice |
| Sse.WriteSSE | internal/httpapi/respond.go:23-42 | writes one frame, or a front of it if the connection breaks |
| Sse.FramesRoundTrip | internal/cli/live_client.go:144-188 | over concatenated frames the client emits exactly the payloads of the frames that are not control frames, in order, whatever their ids and types |
| SseBytes.FrontOfFrames | internal/cli/live_client.go:144-188 | over any front of the frames' bytes, even one cut inside a character, it emits a prefix of the same, and over all of them exactly that |
| Sse.ConsumeSSE | internal/cli/live_client.go:144-188 | emits exactly what the characters it has read hold, and reads to the end unless the connection or the receiver fails |
| EventStream.OneMessagePerFrame | internal/httpapi/respond.go:23-55 | to a reader following the standard every frame is exactly one message, with the sanitised type and id and the payload, even if id or type hold line ends |
| ClipText.Clip | internal/textutil/textutil.go:79-116 | clips exactly when 0 < maxBytes < length; what is left is the head of two thirds of the bound and the tail of the rest around the marker, for every byte string; on a text without newlines they fall short by at most three bytes each, and they are well-formed UTF-8 if the text is |
| ClipText.Head | internal/textutil/textutil.go:83-102 | the head ends at the last whole character before the last newline past its first byte if the cut holds one, else before the cut; in a well-formed text right before that newline or at most three bytes before the cut |
| ClipText.Tail | internal/textutil/textutil.go:89-109 | and the tail starts with the first whole character after the first newline if one is followed by more, else after the cut; in a well-formed text right after that newline or at most three bytes after the cut |
| ClipText.FrontIsValid | internal/textutil/textutil.go:96-102 | a front of a well-formed text that ends with a whole character is well-formed |
| ClipText.RestIsValid | internal/textutil/textutil.go:103-109 | a back that begins with a whole character is well-formed |
| ClipText.EndsBadly | internal/textutil/textutil.go:97 | looking back at most four bytes decides whether a text ends with a whole character |
| Utf8.WellFormedIsEncoded | internal/textutil/textutil.go:93-109 | the byte strings taken for well-formed are exactly the encodings of texts |
| Spool.SpoolAccounts | internal/httpapi/hook.go:24-75 | over every interleaving of calls, writer and close the counter is exactly the bytes reserved, queued or being written, within 0 and the budget; a body is in one place and attempted at most once; the drop counters are exact |
| Spool.WhatFitsIsKept | internal/httpapi/hook.go:24-75 | in every interleaving of calls whose bodies together fit the budget and the slots none is dropped |
| Spool.NeverStuck | internal/httpapi/hook.go:39-75 | until every body is written or dropped some step is possible |
| Spool.WorkRunsOut | internal/httpapi/hook.go:49-59 | every step uses up a bounded amount of work, however the swaps race |
| Spool.RunsAreFinite | internal/httpapi/hook.go:39-75 | without new calls every run is finite |
| Spool.EveryBodyIsAccountedFor | internal/httpapi/hook.go:24-75 | where it ends nothing is reserved and every body was given to the file once or dropped once |
| Spool.ABodyCanBeSpooled | internal/httpapi/hook.go:24-75 | from every reachable open state a body that fits the budget can be offered and written, and those before it are not lost by it |
| Spool.ASpoolCanClose | internal/httpapi/server.go:266-274 | from every reachable state the spool can be shut down: every body is written or dropped first, nothing stays reserved, and the writer ends |
| RunLoop.Run | internal/runtime/run.go:118-224 | the loop is the step function over whatever its select receives; the paths accepted and not in a file job sent since are exactly the pending and the dirty ones, the file jobs ever put on the queue are those sends in order, exactly the ingestible files that came while running are accepted, and while running pending files have their timer |
| RunLoop.NoPathIsLost | internal/runtime/run.go:120-125 | over every run a pending or dirty path stays pending or dirty until a file job with it is put on the queue, and no job is dropped from it |
| RunLoop.AcceptedIsPending | internal/runtime/run.go:157-194 | an ingestible file event while running makes its path pending |
| RunLoop.StepKeeps | internal/runtime/run.go:118-224 | every step of the loop keeps the account of accepted paths and sent jobs, and the timer |
| RunLoop.OwedIsWaiting | internal/runtime/run.go:113-125 | a path is owed exactly when some acceptance of it has seen no job with it since |
| RunLoop.EverySourceIsAsked | internal/runtime/run.go:270-309 | a rebuilt configuration, a resume from a pause and a tick while running put a full job for every source on the queue, in order, as far as there is room, and count the rest as dropped |
| RunLoop.FullJobsAreCounted | internal/runtime/run.go:270-309 | over every run each full job asked for or sent from elsewhere is on the queue, off it, or counted as dropped |
| RunLoop.Service.FlushPendingFiles | internal/runtime/run.go:120-125 | pending files join the dirty ones and all go out as one job if the queue has room, else all stay dirty |
| RunLoop.Service.EnqueueFileRetry | internal/runtime/run.go:291-303 | one job with every dirty path, or no change |
| RunLoop.Service.OnResume | internal/runtime/run.go:142-156 | after a pause: full jobs for every source, as far as they fit, then the timer off and one flush of all pending and dirty files; while running nothing changes |
| RunLoop.StrandedExactlyWhenFull | internal/runtime/run.go:145-156 | such a resume leaves dirty files, now without a timer, if and only if there was something to flush and the full jobs left no room |
| RunLoop.Service.OnTimer | internal/runtime/run.go:197-212 | while paused keeps the files; else flushes and counts down again exactly if something stayed dirty |
| RunLoop.Service.OnFile | internal/runtime/run.go:157-194 | while running an ingestible file is accepted and the timer starts over; while paused nothing changes |
| RunLoop.AResumeCanStrand | internal/runtime/run.go:145-156 | the run of a file, a pause, 64 jobs from elsewhere and the resume ends with the path dirty, the loop running and the timer off |

## Left out

- JSON, SQLite, bbolt, fsnotify and regular expressions: messages, rows and payloads are
  datatypes, a transaction is one step, a bucket is a sequence in byte order.
- Restarts: ids of records that never became durable are used again after one; the broker
  theorems hold within one lifetime.
- 64-bit wrap-around of event ids and byte counts: ids are unbounded except in the key
  codec, the log and the textual ids, where the 64-bit limit is modelled.
- Clocks and timeouts: times are integers with 0 for absent, bounded waits end either way.
- Watch and status filtering: `WriteReplayEvents` takes the filter as a parameter, the
  broker theorems speak of the records before filtering.
- The oldest surviving id in a resync frame is modelled in `ReplayGap`, not in the step
  system.
- The live-state fold and the broker are separate systems: the step system does not carry
  liveSessions, whose update precedes publication inside the same critical section.
- Normalisation of live events, redaction and the final sort and paging of the overlay.
- Provider discovery, providers without files, and the stored skill and MCP server rows;
  files are taken to lie under a known source root.
- The line number and hash columns of the offsets table, and session titles.
- StreamPipeline.StreamSessions: does not carry the summary's row counts, which only add up
  what parsing returns, and takes the parse of a batch as a function of the batch.
- Ingest batches are sunk in any grouping in `Incremental`, which contains the pipeline's.
- Single-file ingest of a blank file stores nothing, as in the code; a file is blank when it
  has no line.
- Reconciliation of background task completions, titles and turn components in the Claude
  Code parser; whether an output carries a refusal and which texts are not prompts are
  given. The codex and opencode parsers have the same shapes with simpler accounting.
- ToolCall ids and MCP name splitting; session times.
- SSE texts are sequences of characters, so invalid UTF-8 in an id or type is not modelled.
- Clipping's marker text is a parameter.
- A failed write of a spooled body counts as an attempt; it is logged and not counted as a
  drop, as in the code.
- Within one turn of the run loop's select the worker takes no job; taking one would only
  make room for the turn's own jobs.
- Activity events and counters of the run loop, watcher maintenance, and the worker, whose
  job ends at its first failing path.
- In `SseBytes` how the client reads bytes that are not UTF-8 is a parameter; of it is assumed
  that it reads UTF-8 as what it encodes and no such bytes as an empty line.
- HTTP routing, authentication, configuration, the CLI and the web front end.
