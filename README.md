# rhytm master/worker orchestration, modelled in Dafny

rhytm downloads a list of YouTube videos in parallel. A master process
extracts the video ids from an HTML page. It drops the ids already recorded
in its SQLite database and splits the rest into batches of
`link_batch_size`. Worker processes (`client`) connect over a Unix socket,
greet the master, and ask for batches one `BatchRequest` at a time. Each
worker downloads every link of a batch through yt-dlp, relays yt-dlp's
progress reports as `JSON` messages and logs one line per finished link.
When the master has no batch left, it answers `EndRequest`. For each
finished real download it updates a progress bar and inserts a `NewVideo`
row into the database.

The model covers the protocol logic of four files:

- `src/comms.rs`: the `Message` enum and the length-prefixed frame codec
  (`read_json_msg`, `write_json_msg`).
  - Module `Protocol` stands in for serde_json with a concrete,
    self-delimiting payload encoding. Its round trip is proved in both
    directions.
  - Module `Frame` holds the framing as functions on byte sequences, plus a
    `Stream` class whose methods read into an `array` buffer and append to
    an outgoing byte sequence.
  - Module `Bytes` holds the 8-byte `usize` prefix, in either byte order.
- `src/main.rs`: the complete master.
  - Module `Batching` holds the dedup filter loop and the shared `chunks`
    iterator, a `BatchQueue` class with an atomic `Draw`.
  - Module `Sink` holds the progress-bar label, length and position and the
    completion record.
  - Module `Store` holds the `videos` table, an append-only `VideoStore`.
  - Module `Master` holds the handshake and the per-connection dispatch
    loop. They are pure functions (`Step`, `Serve`, `Session`) with the
    imperative `RunSession` proved against them. `AcceptLoop` builds the
    queue from the filtered links and serves the connections in turn,
    as the sessions the pure `AcceptRuns` lists.
- `src/bin/master.rs`: the earlier prototype, in module `Prototype`. It has
  an unfiltered queue, accepts only `Greeting(0)`, and only dumps finished
  reports. It is proved to agree with `Master` on the messages both handle.
  Its `AcceptLoop` queues the captured links unfiltered.
- `src/bin/client.rs`: the worker, in module `Worker`. It covers the
  handshake check, the request/reply loop and the two-message progress
  callback, as pure functions and the `Run` method proved against them.
  The handshake check is a parameter `check`: `AsWritten` is the check
  src/bin/client.rs:60-71 performs, `Corrected` the one it evidently
  intends. Every worker lemma states what happens under both.

Sessions run one after another against one shared `BatchQueue` and one
`VideoStore`; the mutexes of the source become atomic method calls. A
session consumes the messages its worker sent, in order. Running out of
them is the read failure a closed socket gives. For a worker that writes
whole frames and then closes, `Frame.ReadAllFrames` shows that the framed
reads yield exactly the messages written, and `Master.SessionOverFrames`
shows that the session over those reads is the session over the messages.
A stream cut off mid-frame is read as written up to the failed read.

Outside effects become parameters:
- the decoding of a `JSON` payload into a `DownloadStatus` (serde_json) is
  `parse: string -> Option<DownloadStatus>`;
- the worker's k-th yt-dlp download call is `hooks(k, link)`, the strings its
  progress hook is called with.

Three places where the source behaves differently from what a reader might
expect:
- In `src/main.rs` a bad first message panics inside the accept loop
  (src/main.rs:194-202), which stops all further accepts, not just one
  session. The model returns `AcceptLoopPanic`, not a session-level error.
- Inserting a completion record is not idempotent: the insert is
  `unwrap`ped (src/main.rs:312-315). Nothing here claims idempotency, and
  the store appends every row.
- The worker accepts only `Greeting(0)` (src/bin/client.rs:60), not the echo
  of its own id. `Worker.Run` with `AsWritten` follows this code; see
  "## Findings" for what `Corrected` changes.

## Model

| member | source | states |
|---|---|---|
| Bytes.UsizeRoundTrip | src/comms.rs:27 | reading back the 8 bytes `usize::to_ne_bytes` gives, in either byte order, yields the same length |
| Bytes.UsizeBytesRoundTrip | src/comms.rs:27 | every 8-byte prefix is the encoding of the length it is read as, so the prefix decoding is a bijection |
| Bytes.FromToLittleEndian | src/comms.rs:27 | little-endian decoding inverts encoding for any value below 256^k |
| Bytes.ToFromLittleEndian | src/comms.rs:27 | re-encoding a decoded byte string of length k gives the same bytes |
| Protocol.Encode | src/comms.rs:43 | a serialized message is never empty and starts with its variant's tag |
| Protocol.ParseEncodedString | src/comms.rs:43 | an encoded string parses back to the same string and leaves whatever follows untouched |
| Protocol.ParsedStringIsEncoded | src/comms.rs:33 | whatever parses as a string is exactly that string's encoding followed by the unparsed rest |
| Protocol.ParseEncodedList | src/comms.rs:43 | an encoded list of links parses back to the same list and leaves the rest untouched |
| Protocol.ParsedListIsEncoded | src/comms.rs:33 | whatever parses as a list is exactly that list's encoding followed by the rest |
| Protocol.CharRoundTrip | src/comms.rs:43 | every character's 3-byte encoding decodes to that character |
| Protocol.LevelRoundTrip | src/comms.rs:89 | every log level's byte decodes to that level |
| Protocol.DecodeEncode | src/comms.rs:33 | deserializing a serialized message gives back the same message, for all 8 variants |
| Protocol.EncodeDecode | src/comms.rs:33 | in the encoding that stands for serde_json, every payload that decodes is exactly the encoding of its result: the stand-in accepts no other bytes (serde_json itself also accepts other spellings, see Left out) |
| Protocol.EncodeInjective | src/comms.rs:84-99 | distinct messages serialize differently (structural equality of the closed enum) |
| Frame.FrameOf | src/comms.rs:41-51 | a written frame is exactly 8 bytes of payload length in the stream's byte order, then exactly the payload |
| Frame.ReadFrame | src/comms.rs:21-35 | fewer than 8 bytes is the length error; a declared length longer than what follows is the payload error; success consumes 8+N bytes whose payload decodes to the result; an undecodable payload is an error, never a default |
| Frame.FrameRoundTrip | src/comms.rs:21-51 | reading a frame written for m yields m, consumes exactly the frame and leaves the following bytes for the next read |
| Frame.ReadFrameIsWhole | src/comms.rs:21-35 | with the stand-in encoding, a successful read consumed exactly the frame that writing its result produces |
| Frame.ReadAllFrames | src/comms.rs:21-35 | reading a stream of written frames one after another yields the messages in order, then the length error at end of stream |
| Frame.Stream.ReadExact | src/comms.rs:24 | `read_exact` fills the whole buffer with the next unread bytes and advances the cursor by its length, or fails exactly when too few bytes are left |
| Frame.Stream.ReadMessage | src/comms.rs:21-35 | `read_json_msg` returns what ReadFrame gives on the unread bytes and advances the cursor by the bytes it consumed |
| Frame.Stream.WriteMessage | src/comms.rs:41-51 | `write_json_msg` appends exactly the frame of the message and returns the payload length, without the prefix |
| Store.UidsOf | src/main.rs:94-100 | the downloaded uid list has one entry per row, the row's uid, in row order |
| Store.VideoStore.Uids | src/main.rs:94-100 | the list of uids loaded from the table has one entry per row |
| Store.VideoStore.Insert | src/main.rs:312-315 | an insert appends the row and changes nothing else |
| Sink.Author | src/main.rs:277-280 | the author shown is `creator` when present, else `uploader` |
| Sink.LabelLayout | src/main.rs:275-283 | the bar message is the author, " - ", the title, " [", the display id and "]", in that order and nothing else: its length and every separator are fixed |
| Sink.BarLength | src/main.rs:284-287 | the bar length is `total_bytes`, else the truncated estimate, else 0 |
| Sink.Report | src/main.rs:275-288 | a report sets the bar's message, length and position (downloaded bytes) and leaves its style |
| Sink.ReportOverwrites | src/main.rs:275-288 | what a report sets does not depend on what the bar showed before, and repeating a report changes nothing |
| Sink.CompletionRecord | src/main.rs:290-310 | a record exists exactly for a finished real download; uid = display id, link = webpage url, author = artist, title, duration and description copied |
| Batching.Take | src/main.rs:228 | the next chunk is the first b links, or all of them when fewer are left |
| Batching.Drop | src/main.rs:228 | the chunk handed out followed by what the iterator keeps is what it held |
| Batching.ChunksFlatten | src/main.rs:128 | the chunks of the link list, concatenated, are the link list |
| Batching.ChunksShape | src/main.rs:128 | every chunk but the last holds exactly b links; the last holds n mod b links, or b when b divides n |
| Batching.ChunksCount | src/main.rs:128 | there are ceil(n / b) chunks |
| Batching.PartitionLaw | src/main.rs:128 | the batches handed out so far, concatenated, followed by what the iterator still holds, are the whole list |
| Batching.FilterLinks | src/main.rs:115-121 | the loop pushes exactly the raw links not in the DB uid list, in their original order |
| Batching.FilteredAppend | src/main.rs:117-121 | filtering a concatenation filters each part and keeps their order |
| Batching.FilteredCount | src/main.rs:117-121 | a link not in the DB occurs as often as in the raw list (duplicates kept); a link in the DB does not occur |
| Batching.FilteredMembership | src/main.rs:117-121 | a link is queued iff it was captured and is not in the DB |
| Batching.DownloadedNeverQueued | src/main.rs:115-128 | no batch ever holds a link already in the DB |
| Batching.BatchQueue.constructor | src/main.rs:128 | the iterator starts on the whole list with nothing handed out; a zero batch size is refused |
| Batching.BatchQueue.Draw | src/main.rs:228 | one locked `next()`: the next chunk, removed from the iterator and recorded as handed out, or None, and None ever after |
| Master.Handshake | src/main.rs:194-209 | any Greeting is accepted, whatever its id, and gives the session that id; anything else is refused |
| Master.OnStatus | src/main.rs:275-317 | a decoded report sets label, length and position; a finished report with acodec "none" becomes the video report, with vcodec "none" the audio report; only a finished real download adds its completion record and turns the bar into a spinner, otherwise the style is kept; queue, replies and logs are unchanged |
| Master.Step | src/main.rs:224-337 | Greeting, Batch or EndRequest in the loop, and only these, end the session task as unexpected; only BatchRequest touches the queue and the replies; only JSON inserts; a Log is relayed unchanged |
| Master.StepAnswers | src/main.rs:224-327 | a BatchRequest is answered with the first chunk still queued, which leaves the chunks after it, or with EndRequest once the queue is empty, which is Done; nothing else is Done; an undecodable JSON payload panics the session task with BadStatus, a decodable one is applied by OnStatus; DownloadStart continues with a byte bar, DownloadEnd continues with nothing changed; a pass stops exactly on Greeting, Batch, EndRequest, a request with the queue empty, or an undecodable report |
| Master.StepRecords | src/main.rs:261-317 | one pass inserts the completion record of its message when it is a decodable report of a finished real download, and nothing otherwise |
| Master.ServeMarkers | src/main.rs:323-326 | any run of DownloadStart and DownloadEnd is accepted: the loop reads on until the connection fails, answers, logs and inserts nothing, and only the bar style changes, to bytes once a DownloadStart came |
| Master.SessionOverFrames | src/main.rs:220-224 | a worker that writes the frames of its messages and closes is read back as those messages, the last read failing for want of a length, and served as the session over them |
| Master.ServeExtends | src/main.rs:222-338 | the loop only appends to what it has replied, logged and inserted |
| Master.ServeHandsOutChunks | src/main.rs:226-246 | the batches a session sends, followed by the chunks still queued, are the chunks queued when it started: each batch goes out once, in order |
| Master.ServeReplies | src/main.rs:226-246 | every reply is a Batch except possibly the last, which may be EndRequest; the session is Done iff its last reply is EndRequest, and then the queue is empty |
| Master.QuietMessagesLeaveQueue | src/main.rs:249-327 | Log, JSON, DownloadStart and DownloadEnd never change the queue or the replies |
| Master.SessionHandshake | src/main.rs:189-211 | no first message, or one that is not a Greeting, panics the accept loop with no reply; a Greeting is echoed as the first reply and the loop never panics the accept loop |
| Master.ServeNeverPanicsAcceptLoop | src/main.rs:220-339 | nothing inside the spawned task panics the accept loop |
| Master.SessionHandsOutChunks | src/main.rs:183-246 | across a whole connection, batches sent plus chunks left are the chunks the session found |
| Master.ServeRequests | src/main.rs:224-246 | the loop adds exactly one reply per BatchRequest among the messages it reads, up to and including the one it stops at |
| Master.ServeAnswers | src/main.rs:226-246 | reply k the loop adds is chunk k of the queue it started with while chunks remain; the reply after the last chunk is EndRequest, and it is there iff the session is Done |
| Master.ServeRecords | src/main.rs:261-317 | the rows the loop inserts are the completion records of the finished real reports among the messages it read, in the order read |
| Master.SessionAnswers | src/main.rs:183-339 | after the echoed greeting, a session replies once per BatchRequest read, with the chunks of the queue it found and then EndRequest exactly when it is Done, and inserts the completion records of the reports it read, in order |
| Master.SessionExhausted | src/main.rs:226-244 | with the queue empty, a worker's first BatchRequest after its greeting gets EndRequest and the session is Done |
| Master.ApplyStatus | src/main.rs:290-317 | the JSON arm's updates to the bar, `audio_ds`, `video_ds` and the DB are those OnStatus describes |
| Master.Dispatch | src/main.rs:224-337 | one pass of the loop changes the shared queue, the DB and the session's values exactly as Step says, and reports whether the session task ends |
| Master.RunSession | src/main.rs:183-339 | replies, logs, bar, outcome, the queue left and the rows inserted are those of Session |
| Master.SessionLoop | src/main.rs:220-339 | the spawned task's loop after the greeting: replies, logs, bar, outcome, the queue left and the rows inserted are those of Serve from the second message |
| Master.AcceptLoop | src/main.rs:94-345 | the queue holds the captured links not in the DB uid list read at start; connection 0 is served as Session on that list and connection k after it as Session on the links session k-1 left; `sent[k]` and `outcomes[k]` are session k's replies and outcome; sessions run in order until one panics the accept loop, and connections are left unserved only after that; the DB ends as its old rows followed by each session's inserted rows in order; all batches sent, followed by the chunks left, are the chunks of the filtered list |
| Master.ServeConnections | src/main.rs:183-345 | the loop over the accepted connections records exactly the replies, outcomes, queue left and rows of the sessions AcceptRuns lists |
| Master.ServeNext | src/main.rs:183-342 | one pass of the accept loop serves the next connection as Session on the links then queued, appends its replies, outcome and rows, and says whether it panicked the accept loop |
| Master.AcceptRunsShape | src/main.rs:183-345 | the first connection is served on the links at hand; no session but the last panics the accept loop; a connection goes unserved only after such a panic |
| Master.AcceptRunsChain | src/main.rs:183-345 | session k after the first is the k-th connection served on the links session k-1 left |
| Master.AcceptHandsOutChunks | src/main.rs:183-246 | over all sessions of the accept loop, the batches sent, session after session, followed by the chunks left, are the chunks the loop started with |
| Master.AcceptRecord | src/main.rs:183-345 | the recorded replies and outcomes of the sessions AcceptRuns lists say how many connections were served, that only the last may panic the accept loop, how the sessions chain, and that the batches partition the starting links |
| Prototype.Handshake | src/bin/master.rs:200-214 | only a first message equal to Greeting(0) is accepted, and the session id is then 0 |
| Prototype.Step | src/bin/master.rs:219-300 | Greeting, Batch, EndRequest, DownloadStart and DownloadEnd end the session task as unexpected; only BatchRequest touches queue and replies; a finished decoded report is only dumped |
| Prototype.ServeExtends | src/bin/master.rs:218-301 | the loop only appends to its replies |
| Prototype.SessionHandshake | src/bin/master.rs:200-214 | the accept loop panics iff the first message is missing or is not Greeting(0); otherwise Greeting(0) is echoed first |
| Prototype.ServeNeverPanicsAcceptLoop | src/bin/master.rs:216-302 | nothing inside the spawned task panics the accept loop |
| Prototype.ServeHandsOutChunks | src/bin/master.rs:221-241 | batches sent plus chunks still queued are the chunks queued when the loop started |
| Prototype.SessionHandsOutChunks | src/bin/master.rs:196-241 | across a connection, batches sent plus chunks left are the chunks the session found |
| Prototype.StepAnswers | src/bin/master.rs:219-262 | a BatchRequest gets the first chunk still queued, leaving the chunks after it, or EndRequest once the queue is empty, which is Done; nothing else is Done; an undecodable JSON payload panics the session task with BadStatus |
| Prototype.ServeAnswers | src/bin/master.rs:221-241 | one reply per BatchRequest read; reply k is chunk k of the queue the loop started with while chunks remain, then EndRequest, there iff the session is Done |
| Prototype.SessionAnswers | src/bin/master.rs:196-302 | after Greeting(0), one reply per BatchRequest read, with the chunks of the queue found and then EndRequest exactly when Done |
| Prototype.SessionExhausted | src/bin/master.rs:221-239 | with the queue empty, the first BatchRequest after Greeting(0) gets EndRequest and the session is Done |
| Prototype.AcceptLoop | src/bin/master.rs:90-308 | every captured link is queued, none filtered; connection 0 is served as Session on the captured list and connection k after it as Session on the links session k-1 left; `sent[k]` and `outcomes[k]` are session k's replies and outcome; sessions run in order until one panics the accept loop, and connections are left unserved only after that; all batches sent, followed by the chunks left, are the chunks of the captured list |
| Prototype.ServeConnections | src/bin/master.rs:196-308 | the loop over the accepted connections records exactly the replies, outcomes and queue left of the sessions AcceptRuns lists |
| Prototype.ServeNext | src/bin/master.rs:196-305 | one pass of the accept loop serves the next connection as Session on the links then queued, appends its replies and outcome, and says whether it panicked the accept loop |
| Prototype.AcceptRunsShape | src/bin/master.rs:196-308 | the first connection is served on the links at hand; no session but the last panics the accept loop; a connection goes unserved only after such a panic |
| Prototype.AcceptRunsChain | src/bin/master.rs:196-308 | session k after the first is the k-th connection served on the links session k-1 left |
| Prototype.AcceptHandsOutChunks | src/bin/master.rs:196-241 | over all sessions of the accept loop, the batches sent followed by the chunks left are the chunks the loop started with |
| Prototype.AcceptRecord | src/bin/master.rs:196-308 | the recorded replies and outcomes of the sessions AcceptRuns lists say how many connections were served, that only the last may panic the accept loop, how the sessions chain, and that the batches partition the starting links |
| Prototype.ServeDone | src/bin/master.rs:233-239 | the session task returns normally iff its last reply is EndRequest, and then the queue is empty |
| Prototype.ServeAgreesWithMaster | src/bin/master.rs:218-300 | on BatchRequest, Log and the unexpected variants the prototype's loop replies, logs, queues and ends exactly as the complete master's |
| Prototype.RunSession | src/bin/master.rs:196-302 | replies, logs, dumped reports, outcome and queue left are those of Session |
| Worker.HandshakeAsWritten | src/bin/client.rs:58-71 | as written, the handshake passes iff the reply is Greeting(0) and the worker's id is 0 |
| Worker.Handshake | src/bin/client.rs:58-71 | corrected: the handshake passes iff the reply is Greeting of the worker's own id; a non-Greeting is garbage, another id a wrong id |
| Worker.Forward | src/bin/client.rs:93-108 | the callbacks of one download write, per hook string, the "Sending JSON!" debug log then JSON of that string |
| Worker.DownloadBatch | src/bin/client.rs:181-194 | the batch loop writes, per link in order, the download's callback messages then one "finished downloading video ID" info log |
| Worker.Run | src/bin/client.rs:56-205 | what the worker writes and how it ends are those of Worker, under the check given: AsWritten refuses every reply but Greeting(0), Corrected refuses every reply but Greeting(thr_id) |
| Worker.LoopExtends | src/bin/client.rs:175-176 | every pass of the loop starts by writing BatchRequest after everything written before |
| Worker.WorkerGreetsFirst | src/bin/client.rs:56-71 | the first message is Greeting(thr_id); the worker writes nothing else iff the handshake fails: no reply, a reply other than Greeting(thr_id), or, as written, any id but 0; otherwise its second message is BatchRequest |
| Worker.HookMessagesShape | src/bin/client.rs:93-108 | hook callback t writes message 2t, the debug log, and message 2t+1, JSON of hook string t |
| Worker.HookMessagesNoInfo | src/bin/client.rs:93-108 | the callbacks write no info-level log |
| Worker.BatchInfoLogs | src/bin/client.rs:181-193 | the info logs written for a batch are one "finished downloading video ID {link}" per link, in batch order |
| Worker.BatchMessagesAreReports | src/bin/client.rs:181-193 | processing a batch writes only Log and JSON messages |
| Worker.HookMessagesAreReports | src/bin/client.rs:93-108 | the callbacks write only Log and JSON messages |
| Worker.LoopTrace | src/bin/client.rs:175-202 | against replies of batches then EndRequest, the loop writes BatchRequest, the batch's messages, and so on, then a last BatchRequest, and finishes |
| Worker.WorkerTrace | src/bin/client.rs:56-205 | against an echoing master with batches bs: as written, a worker with id other than 0 writes its greeting only and panics with garbage; otherwise the run writes the greeting, the conversation over bs, a last BatchRequest, and returns Ok |
| Worker.ConversationInfoLogs | src/bin/client.rs:181-193 | over a whole conversation the info logs are one per link of the concatenated batches, in order |
| Worker.ConversationRequests | src/bin/client.rs:176 | a conversation over bs writes exactly one BatchRequest per batch |
| Worker.WorkerTraceCounts | src/bin/client.rs:56-202 | under the corrected check, or for id 0, a run over bs writes |bs|+1 BatchRequests and one finished log per link, in order; as written, a worker with id other than 0 writes no BatchRequest and no such log |
| Worker.TranscriptCounts | src/bin/client.rs:175-202 | the greeting, the conversation over bs and a last BatchRequest hold |bs|+1 BatchRequests and one finished log per link, in order |
| Worker.LoopFinished | src/bin/client.rs:177-201 | the loop returns Ok iff the replies are Batches followed by an EndRequest; any other reply, or none, aborts |
| Worker.WorkerFinished | src/bin/client.rs:56-205 | the worker returns Ok iff it is greeted with its own id, that id is 0 under the as-written check, and it then receives Batches followed by EndRequest |
| Worker.LoopIgnoresHooks | src/bin/client.rs:183 | how the loop ends does not depend on what the downloads did |
| Worker.OutcomeIgnoresDownloads | src/bin/client.rs:183 | a failed download does not stop the worker: under either check its outcome is the same whatever the downloads produce |
| Worker.AsWrittenRejectsEcho | src/bin/client.rs:60 | a worker with id other than 0 rejects the complete master's echo of its own greeting as garbage, and the whole as-written run then writes its greeting only |
| Worker.EchoAccepted | src/bin/client.rs:58-71 | with the corrected check, every worker accepts the complete master's echo and goes on past its greeting |
| Worker.HandshakesAgreeAtZero | src/bin/client.rs:60-71 | for worker 0 the corrected and as-written checks accept the same replies |

## Left out

- serde_json is replaced by the concrete encoding of `Protocol`. Only the
  properties the framing relies on are stated about it: the round trips and
  injectivity. Byte-for-byte JSON text is not modelled.
- Protocol.EncodeDecode, Frame.ReadFrameIsWhole: these hold for the stand-in
  encoding only. `serde_json::from_slice` (src/comms.rs:33) also accepts
  JSON text that is not canonical, such as extra whitespace, and encoding
  the result again gives different bytes. The model does not capture that.
- The decoding of a `JSON` payload into `DownloadStatus` is the parameter
  `parse`. The model has no JSON text or field names.
- Floating-point fields of `DownloadStatus` and `InfoDict` are left out.
  `total_bytes_estimate` is kept as a whole number, already truncated as
  `f64 as usize` leaves it. Fields the session logic never reads are left
  out too.
- `Options` parsing, the regex link extraction, process spawning,
  permission fixing and environment passing are left out. The captured
  link list and the batch size are inputs.
- Diesel and SQLite are left out. The table is a sequence of rows that
  inserts append to. Migrations and the `Video` query are left out, except
  for the uid list they produce.
- Concurrency (tokio tasks, `Arc<Mutex<..>>`) is left out. The accept loop
  over `listener.incoming()` is `AcceptLoop` over a sequence of
  connections, each served to its end before the next is accepted;
  interleavings finer than one `Draw` are not modelled. When
  `listener.incoming()` yields an error, both masters reach `todo!()`
  (src/main.rs:343, src/bin/master.rs:306) and panic; the model accepts
  every connection it is given.
- indicatif rendering, the steady tick, `MultiProgress` and the logger
  setup are left out. The bar is its message, length, position and style.
  A relayed `Log` is recorded as a line, not printed.
- The debug JSON file writes are left out (src/main.rs:263, 291-295). In
  the prototype a finished report is recorded as "dumped", which stands for
  its file write. So are the error-context slice (src/main.rs:270), whose
  own panic ends the session task just as `BadStatus` does, and the
  `unwrap`/`expect` on socket writes: writes to the socket do not fail.
- pyo3 and yt-dlp are left out. A download is the opaque `hooks(k, link)`,
  the hook strings of the k-th download call. Its result is discarded, as
  in the source.
- Worker.Forward: every hook string is taken to be valid text. At
  src/bin/client.rs:105, `d.to_str().expect(..)` panics inside the callback
  on a string Python cannot give as UTF-8, after the debug `Log` has been
  written. The model has no such strings.
- The callback reads the worker's id from the `THR_ID` environment
  variable again. The model uses the id the worker started with, which is
  the same value.
- src/bin/master.rs and src/bin/client.rs match on a `Message` without the
  `DownloadStart` and `DownloadEnd` arms. master.rs imports it from
  src/udde.rs, which does not define it. Both are modelled against the
  `comms.rs` enum, with the missing variants treated like the other
  unexpected ones: they end the session task.
- src/udde.rs, src/bin/stest.rs and src/schema.rs are not part of this
  model.
- The batch queue and all session functions require a batch size above 0:
  `chunks(0)` panics before any session starts.
- Frame.ReadFrame: `Vec::with_capacity(size)` (src/comms.rs:29-30) panics
  or aborts the process when the declared size cannot be allocated. The
  model has no memory limit: a huge declared length is read as the payload
  error when the stream holds fewer bytes. Frame.Stream.ReadMessage inherits
  this.
- Frame.Stream.ReadExact: on a short read the model moves the cursor to the
  end of the input. The standard library leaves unspecified how much a
  failed `read_exact` consumed, and every caller gives up on the stream
  after a failure.
- The socket is a byte sequence in each direction. Partial writes,
  interrupts and timeouts do not occur.

## Findings

| source | as written | input that shows it | evidently intended | confidence | as-written member | corrected member |
|---|---|---|---|---|---|---|
| src/bin/client.rs:60 | the worker refuses any reply other than `Greeting(0)`; the `thr_id != v` check that follows can then only fail for a worker whose id is not 0 | worker with `THR_ID=1` sends `Greeting(1)`; src/main.rs echoes `Greeting(1)`; the worker panics with "Server sent garbage" | accept the echo `Greeting(thr_id)` and reject only another variant or another id | not executed | Worker.HandshakeAsWritten, Worker.AsWrittenRejectsEcho | Worker.Handshake, Worker.EchoAccepted |
