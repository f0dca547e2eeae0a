# Encrypted file transfer and its relay: a verified model

The system moves files between two browsers. They meet in a named room of a WebSocket relay, agree on a key, and
send a batch of files as one stream of sealed frames, over the relay or over a direct data channel. The project
models four parts of it and proves what they promise.

**The encrypted batch transfer.** `Batch` defines the stream a batch stands for: per file one metadata record, then
`ceil(size / chunkSize)` chunks, each frame bound to its place by additional data (`Binding`). `Sender` is the
prefetching send loop over the serial crypto worker (`WorkerQueue`) and the cached counter-nonce cipher
(`WasmCipher`). `Receiver` is the receiving state machine, as an object updated in place and as a step function on
its state. `RoundTrip` proves that the receiver inverts the sender and says exactly when it does not: what the
browser does at every frame (dialogs cancelled, a disk that fails) is an input of the theorem, not an assumption.
`ReceivedFiles` says, for any frames at all, that only whole files of the announced size are handed over.
`HostileChannel` says what holds of the receiver when a channel drops, repeats, reorders and invents frames, and
`HostileCompletion` what its completion test is then worth. `DirectoryNames` keeps saved names apart for any frames at
all. `EndToEnd` joins both ends. `CodecWitness` shows that what
is assumed of the JSON encoding can be met.

**The path between the ends.** `ReceivePath` is the receiver's buffering (messages before the transport, the
transport's own queue, the promise chain with its fulfilled and rejected links); each stretch of JavaScript without an
`await` is one step. `Shutdown` puts sender, relay pipe and receiver into one transition system whose `Link`s may break,
and proves the transfer-done/transfer-ack handshake safe and free of deadlock; `ShutdownEnds` bounds its length.
`RelayedTransfer` puts the same clients around the relay's own room machine and carries the safety over.

**The relay's rooms.** `Rooms` is a transition system: a program counter per handler, Room objects distinct from
their names, sockets that the relay closes, expiry and `closeDone` as separate steps, any interleaving.
`RoomInvariant` is the inductive invariant, expiry included, and `RoomSockets` that of the closed sockets; `RoomSafety`,
`RoomAdmission`, `RoomWaits`, `RoomPairing`, `RoomReach` and `RoomCleanup` draw the consequences. `RoomLink` shows that the pipe of `Rooms` is the pair
of `Link`s the shutdown is proved about. `RelayRooms` holds the objects
with their fields and channels; taking a slot and expiring do to a Room object what the steps of `Rooms` do, and no
channel is closed twice.

**File names.** `Filenames` is the cleaning and numbering of names; `Cleaning` has the laws that determine the cleaning of
every name.

**Two bounded components.** `RateLimit` is the per-IP limiter over timed traces; `WasmCipher` the nonce discipline.

Where the code does not meet a natural expectation, the project has the exact condition or a witness:

- `Batch.LimitsAgree`: over the direct channel, files above 2,146,729,984 bytes pass the sender's check and are
  refused by the receiver's; `CodecWitness.TooManyChunks` is the first of them.
- `Filenames.SanitizeIdempotent`: cleaning a name twice may change it again, exactly when its base, which is the last
  path component without controls and trailing dots and spaces, is longer than 255 characters and the 255th of them is a
  dot or a space; `Filenames.CleaningTwiceDiffers` has such a name.
- `Filenames.DedupeHarmless`: the limit of 255 characters does not survive the numbers put into used names. It is kept
  exactly when the name is free, or some number both gives a free name and fits; `Filenames.NumberBreaksLimit` has a name
  for which it is not.
- `HostileCompletion.CompletionMeansAllExactly`: over a hostile channel the completion test says that every file has
  arrived exactly for a batch of one file (or one whose last file is refused); `HostileCompletion.LastAlone` is the run
  that shows it.
- `RoomReach.LostExactly`, `RoomReach.WaitingCanBeLost`: `deleteRoom` goes by name, so a handler of an earlier room
  can take a later room, with a client waiting in it, out of the table; three clients of one name are enough.
- `RateLimit.SlidingExactly`: the comment at relay/ratelimit.go:11 speaks of a sliding window; the code opens fixed
  windows, and the model follows the code. It keeps the promise of a sliding window only for a limit of one;
  `RateLimit.BoundAttained` reaches 2·limit − 1 requests in a closed interval of one window.
- `WasmCipher.NonceUniqueness`: nonces stay unique exactly when no key returns after another key was used and no run of
  one key is longer than 2^64 encryptions; the cache forgets the counter of a key it replaces.
- `RoundTrip.CompletionBeforeStart`: the completion test also holds before the first frame.

What is assumed: the cipher is ideal (a frame opens only under the key and additional data it was sealed with); JSON
and text encoding round-trip on the records a sender makes (`Metadata.Codec.Faithful`); times reach the limiter in
non-decreasing order; both ends of a relay transfer are bound to relay mode.

## Model

| member | source | states |
|---|---|---|
| `Bytes.Uint32RoundTrip` | public/security.js:48-49 | a reader of the four big-endian bytes finds the number modulo 2^32, as `>>> 0` leaves it |
| `Bytes.Uint32Order` | public/security.js:48-49 | big-endian: bytes of numbers are ordered as the numbers are, the first difference deciding |
| `Bytes.Uint32Onto` | public/security.js:48-49 | every four bytes are those of one 32-bit number |
| `Binding.EncodeAAD` | public/security.js:44-51 | the buffer filled in place is the 24-byte binding of transfer, file and sequence number |
| `Binding.SetUint32` | public/security.js:48-49 | writes four bytes at an offset and leaves the rest of the buffer alone |
| `Binding.AadLayout` | public/security.js:44-51 | each of the three parts can be read back at its place |
| `Binding.MetadataLayout` | public/security.js:16-17 | metadata carries eight bytes 255 behind the transfer's sixteen |
| `Binding.AadInjective` | public/security.js:44-51 | two bindings of one transfer are equal if and only if file and sequence numbers agree modulo 2^32 |
| `Binding.ChunkNotMetadata` | public/app.js:838-842 | of all pairs of 32-bit numbers only the reserved one has the binding of metadata |
| `Limits.ChunksCover` | public/app.js:29-32 | the chunks run from 0 to the file's size; only the empty file has none |
| `Limits.ChunkStep` | public/app.js:878-883 | chunk k is non-empty and ends at min(start + chunkSize, size) |
| `Limits.ChunkLimit` | public/app.js:16-32 | at most 8192 chunks exactly up to 2 GiB (relay) or 2,146,729,984 bytes (direct channel) |
| `Limits.ValidateSendFiles` | public/security.js:145-166 | accepts exactly the valid selections, and says for every other one which limit stopped it, naming the first file that is too large |
| `Limits.ValidFilesMeans` | public/security.js:4-8 | valid means 1 to 100 files of at most 2 GiB each and 5 GiB together |
| `Filenames.SanitizeHarmless` | public/security.js:82-102 | every result is non-empty, at most 255 long, without separators or control characters, not a dot name |
| `Filenames.SanitizeNotReserved` | public/security.js:94-97 | no result shorter than 255 characters is a Windows device name or ends in a dot or space |
| `Filenames.SanitizeCases` | public/security.js:82-102 | a result is the fallback, a cut of 255 characters, or a clean name that is no device name |
| `Filenames.SanitizeKeeps` | public/security.js:82-102 | a name that is already clean is kept |
| `Filenames.SanitizeEndsWell` | public/security.js:90-100 | a name of at most 255 characters gives a result that does not end in a dot or space |
| `Filenames.SanitizeIdempotent` | public/security.js:82-102 | cleaning twice equals cleaning once if and only if the name is not one whose cut to 255 characters ends in a dot or space |
| `Filenames.CleaningTwiceDiffers` | public/security.js:98-100 | a name of 256 characters that a second cleaning changes |
| `Filenames.SanitizePath` | public/security.js:86-87 | directories in front of a name, with either separator, change nothing |
| `Cleaning.ControlsVanish` | public/security.js:88-89 | control characters anywhere in a name make no difference |
| `Cleaning.LeadingBlankVanishes` | public/security.js:90 | nor do blanks in front of it |
| `Cleaning.TrailingTailVanishes` | public/security.js:90 | nor do blanks and dots behind it |
| `Cleaning.PlainNames` | public/security.js:94-101 | a name without any of these is kept, cut to its first 255 characters, or replaced if it is a Windows device name in any case |
| `Cleaning.NoName` | public/security.js:83-85 | the empty name becomes "download" |
| `Cleaning.Classes` | public/security.js:87-90 | blanks, tails, controls and separators, by their character codes |
| `Filenames.DecimalReads` | public/security.js:64 | the decimal suffix can be read back, so suffixes are distinct |
| `Filenames.CandidateInjective` | public/security.js:64 | different counters give different candidates |
| `Filenames.FirstFreeIsLeast` | public/security.js:61-66 | the loop stops within as many candidates as there are used names, at the first free one |
| `Filenames.DedupeFresh` | public/security.js:53-69 | the name handed out was not in use, after at most as many candidates as used names |
| `Filenames.SkipOther` | public/security.js:61-66 | a used name as long as base and extension alone never delays the search |
| `Filenames.DedupeFilename` | public/security.js:53-69 | the search loop returns the name itself or its first free numbering, and records it |
| `Filenames.FreeNameKept` | public/security.js:54-57 | a free name is taken as it is |
| `Filenames.StemExists` | public/security.js:58-60 | every name has a stem and an extension, from its last dot on unless that is its first character |
| `Filenames.NumberBeforeExtension` | public/security.js:61-68 | a used name gets the smallest number that makes it free, in brackets between stem and extension |
| `Filenames.DedupeInside` | public/security.js:53-69 | a name without separators, controls or dot names keeps that when a number is put into it |
| `Filenames.DedupeHarmless` | public/security.js:53-69 | a harmless name stays within 255 characters if and only if it is free, or some number gives a free name that is short enough |
| `Filenames.NumberBreaksLimit` | public/security.js:64 | a harmless name of 252 characters that exceeds the limit when it is used twice |
| `Filenames.ShortDedupeHarmless` | public/security.js:53-69 | among fewer than a hundred names, one of at most 250 characters always stays within the limit |
| `Filenames.LongDedupeBreaks` | public/security.js:64 | a used name of more than 251 characters never does |
| `Filenames.SavedNamesDistinct` | public/app.js:1027-1035 | over a whole batch the names handed out are pairwise distinct |
| `Metadata.PositiveInt` | public/security.js:104-112 | accepts exactly the integers from 0 to the limit |
| `Metadata.ValidateBounds` | public/security.js:114-143 | whatever the bytes said, accepted metadata is within every limit and has a harmless name |
| `Metadata.ValidateExactly` | public/security.js:114-143 | metadata is accepted if and only if it is an object within the limits, absent batch fields standing for the only file of a batch of one, and it is then read as what it says |
| `WasmCipher.NonceInjective` | wasm/main.go:53-58 | different 64-bit counters give different nonces |
| `WasmCipher.CacheCoherent` | wasm/main.go:33-50 | after any calls the cached cipher is the one of the cached key, and the counter is the length of the key's current run modulo 2^64 |
| `WasmCipher.RunGrows` | wasm/main.go:53-58 | within one run of a key every encryption moves the counter on |
| `WasmCipher.RunReaches` | wasm/main.go:53-58 | every counter value of a run was used by some encryption of it |
| `WasmCipher.NonceAtIs` | wasm/main.go:207-215 | the nonce of an encryption is the counter of its run |
| `WasmCipher.NoncesDiffer` | wasm/main.go:207-215 | within a run shorter than 2^64 no two encryptions share a nonce |
| `WasmCipher.ReturnRepeats` | wasm/main.go:45-48 | a key that returns after another one was used repeats a nonce |
| `WasmCipher.WrapRepeats` | wasm/main.go:53-58 | a run that outlives the counter repeats a nonce |
| `WasmCipher.NonceUniqueness` | wasm/main.go:25-58 | no (key, nonce) pair repeats if and only if no key returns and no run exceeds 2^64 encryptions (section 8.2.1 of NIST SP 800-38D) |
| `WasmCipher.Wasm.GetCipher` | wasm/main.go:33-50 | keeps the cipher of the same key, replaces it and both counters for another, and changes nothing on a bad key |
| `WasmCipher.Wasm.NextEncryptNonce` | wasm/main.go:53-58 | returns the counter as a nonce and advances it modulo 2^64 |
| `WasmCipher.Wasm.Encrypt` | wasm/main.go:187-220 | the frame opens under this key and data only, and carries the nonce of this call in the history of calls |
| `WasmCipher.Wasm.Decrypt` | wasm/main.go:227-266 | the plaintext exactly when the frame was sealed under this key and data |
| `Batch.SealingAt` | public/app.js:795-905 | frame k of file i stands at its position in the stream, after all frames of the files before it |
| `Batch.Locate` | public/app.js:795-905 | every position of the stream is a metadata record or a chunk of one file |
| `Batch.ChunksBytes` | public/app.js:34-40 | the chunk count of any leading files is bounded by their bytes |
| `Batch.BatchTotalBound` | public/security.js:133-137 | an acceptable batch never exceeds the receiver's limit on its total |
| `Batch.LimitsAgree` | public/security.js:114-166 | the receiver accepts the metadata of a file of an accepted batch if and only if the mode is relay or the file is at most 2,146,729,984 bytes, and then reads back what was sent |
| `CodecWitness.CodecFaithful` | public/app.js:827-837 | some encoding reads back every record a sender makes, so the theorems about faithful encodings are not empty |
| `CodecWitness.TooManyChunks` | public/security.js:131 | a file of 2,146,729,985 bytes over the direct channel is accepted by the sender and refused by the receiver |
| `Batch.MetaAadMeansMeta` | public/app.js:838-842 | a frame of the stream with the metadata binding is some file's metadata |
| `Batch.ChunkAadMeansChunk` | public/app.js:885-889 | a frame of the stream with a chunk binding is that chunk of that file |
| `Receiver.StepValid` | public/app.js:958-1106 | an accepted frame leaves the buffers and offsets consistent, whatever the frame was |
| `Receiver.Receiver.HandleReceivedData` | public/app.js:958-1106 | the in-place handler makes exactly one step of the receiver's state machine, error cases included |
| `Receiver.Receiver.ReceiveMetadata` | public/app.js:987-1083 | metadata: announced, a place chosen, and an empty file finished at once |
| `Receiver.Receiver.ReceiveChunk` | public/app.js:1085-1105 | a chunk is stored or refused, and the last one finishes the file |
| `Receiver.Receiver.Store` | public/app.js:1085-1099 | bytes beyond the declared size are refused before anything is written |
| `Receiver.Receiver.WriteMerged` | public/app.js:1096 | the chunk is laid over the buffer at the offset, and nothing else of it changes |
| `Receiver.Receiver.AskDirectory` | public/app.js:1017-1025 | only a cancelled directory dialog is an error |
| `Receiver.Receiver.OpenTargetFor` | public/app.js:1027-1068 | directory, picked file or memory, in this order, with the memory limit |
| `Receiver.Receiver.FinishCurrentFile` | public/app.js:908-956 | hands over the file and prepares for the next unless it is the last; makes exactly the finishing step, faults included |
| `ReceivedFiles.DeliveriesAreWhole` | public/app.js:908-956 | after any frames, genuine or not: every delivery is what opened since its metadata, joined, with the size, kind and name that metadata announced and at least its number of chunks |
| `ReceivedFiles.NeverTooLong` | public/app.js:1085-1098 | at no moment does the open stream or the buffer hold more than the announced size |
| `Receiver.Receiver.ResetForNextFile` | public/app.js:335-346 | nothing of the finished file is left |
| `Receiver.Receiver.IsComplete` | public/app.js:328-333 | the completion test reads the state and changes nothing |
| `Reception.PrefixGrows` | public/app.js:878-883 | the prefixes of a file grow by exactly one chunk each |
| `Reception.MetaAnnounced` | public/app.js:987-1015 | metadata the sender made is accepted exactly when its chunk count is in range, and announces that file |
| `Reception.TargetOpens` | public/app.js:1027-1068 | opening a place starts a file with nothing stored |
| `Reception.HandleKept` | public/app.js:1041-1053 | a picked file keeps its handle, and is streamed exactly if it could be opened |
| `Reception.ChunkStored` | public/app.js:1085-1099 | storing chunk k after k chunks gives the prefix of k + 1 chunks, and fails only if the disk does |
| `Reception.FileFinishes` | public/app.js:908-956 | a file with all its chunks is delivered with the sender's bytes |
| `RoundTrip.MetadataFrame` | public/app.js:958-1083 | the honest metadata frame is accepted if and only if the user and disk let it pass, and file i begins |
| `RoundTrip.ChunkFrame` | public/app.js:958-1106 | the honest chunk frame is accepted if and only if the disk takes it, and one more chunk is held |
| `RoundTrip.RunExact` | public/app.js:958-1106 | after any number of honest frames the receiver's whole state is known, and it has failed exactly when some frame so far could not pass |
| `RoundTrip.DeliversAll` | public/app.js:795-1106 | the sender's stream gives every file back, same bytes, same order, names up to cleaning, if and only if every frame may pass |
| `RoundTrip.CooperativeDelivers` | public/app.js:795-1106 | with a user who cancels nothing and a working disk: if and only if every file has at most 8192 chunks and is streamed or at most 256 MiB |
| `RoundTrip.RelayFits` | public/app.js:1054-1068 | over the relay an accepted batch fails only for a file over 256 MiB that must go to memory |
| `RoundTrip.ProgressAgrees` | public/app.js:70-72 | after each frame the receiver's global chunk is the number of chunk frames handled, equals the sender's, stays within the total and reaches it at the end |
| `RoundTrip.CompletionExact` | public/app.js:328-333 | after n ≥ 1 honest frames the completion test holds if and only if n is the number of files plus the number of chunks |
| `RoundTrip.DirectoryNamesDistinct` | public/app.js:1027-1035 | two files of a batch saved in one directory never share a name |
| `RoundTrip.DirectoryNamesInside` | public/app.js:1027-1035 | every name a file is saved under stays inside the directory |
| `HostileChannel.OpensMeta` | public/app.js:964-985 | whatever opens as metadata is metadata the sender made |
| `HostileChannel.OpensChunk` | public/app.js:964-985 | whatever opens as chunk k of file i is that chunk |
| `HostileChannel.FinishSound` | public/app.js:908-956 | a finished file is one of the sender's, whole |
| `HostileChannel.ChunkSound` | public/app.js:1085-1106 | a chunk that opens extends the prefix held of the current file |
| `HostileChannel.StepSound` | public/app.js:958-1106 | any frame a channel can deliver keeps what is written a chunk-aligned prefix and what is delivered whole |
| `HostileChannel.Integrity` | public/app.js:958-1106 | over any sequence of dropped, repeated, reordered and invented frames, accepted or not, the bytes written are a chunk-aligned prefix of the file with that index, and every delivery is a whole file of the sender |
| `DirectoryNames.StepApart` | public/app.js:958-1106 | one frame, genuine or not, keeps the names in the directory apart and the open file's name new |
| `DirectoryNames.NamesStayApart` | public/app.js:1027-1035 | after any frames at all, no two files saved in the directory share a name |
| `HostileCompletion.CompletionDelivers` | public/app.js:328-333 | over any channel, when the completion test holds after a frame the last file has just been delivered, whole |
| `HostileCompletion.LastAlone` | public/app.js:328-333 | a channel that delivers the last file alone makes the test hold with one delivery |
| `HostileCompletion.CompletionMeansAllExactly` | public/app.js:328-333 | completion over every channel means that each file has come, if and only if the batch has one file or its last file is refused |
| `WorkerQueue.ReplyAppend` | public/worker.js:78-87 | the reply to a request does not depend on what is posted later |
| `WorkerQueue.Worker.Post` | public/worker.js:78-87 | a request joins the end of the queue |
| `WorkerQueue.Worker.RunNext` | public/worker.js:78-87 | one queued request runs at a time, and the replies so far are those its order determines |
| `WorkerQueue.ReplyAnswers` | wasm/main.go:187-266 | a 32-byte key seals, and opens exactly the frames sealed with it and the same data; every other request fails |
| `WorkerQueue.WorkersRoundTrip` | public/worker.js:64-87 | what one worker sealed another opens, whatever else either was asked |
| `WorkerQueue.Worker.Await` | public/app.js:232-246 | the caller gets the reply to its own request: the frame sealed, the plaintext opened, or a failure for a bad key, a frame that does not open, or an unknown function |
| `Sender.WireAt` | public/app.js:843-849 | frame j on the wire is the j-th sealing of the stream under counter first + j |
| `Sender.SessionNoncesDistinct` | wasm/main.go:53-58 | no two frames of a session share a nonce, wherever the counter started |
| `Sender.SessionRun` | public/worker.js:78-87 | the first n requests of a session take the counter n places on |
| `Sender.FreshKeyStartsAtZero` | wasm/main.go:33-50 | a session key that is not cached starts at counter 0, so frame j carries counter j |
| `Sender.SessionReply` | public/worker.js:78-87 | the reply to request j is frame j, however far ahead requests were posted |
| `Sender.Sender.SendMetadata` | public/app.js:827-849 | the metadata frame goes out first |
| `Sender.Sender.ReadChunk` | public/app.js:878-883 | reads chunk k of the file and no other byte |
| `Sender.Sender.AwaitPrefetch` | public/app.js:894-898 | the frame awaited is the next one of the stream |
| `Sender.Sender.SendChunk` | public/app.js:894-904 | one turn sends chunk k with at most one chunk encrypted ahead of the wire |
| `Sender.Sender.SendOneFile` | public/app.js:820-905 | a file's frames follow those of the files before it, with nothing prefetched left over |
| `Sender.Sender.BatchGlobalChunks` | public/app.js:42-48 | the sum loop gives the chunks of the earlier files plus those of this one |
| `Sender.Sender.SendAllFiles` | public/app.js:795-818 | the wire carries the whole stream, frame j under counter first + j, and the progress shown ends at the total |
| `EndToEnd.WireCarries` | public/app.js:795-905 | what the pipelined sender puts on the wire is the simple stream |
| `EndToEnd.WorkerOpensWire` | public/app.js:977 | the receiver's worker gives back the plaintext the sender's worker was given, frame by frame |
| `EndToEnd.WorkerDecides` | public/app.js:975-987 | the worker's answer decides the receiver's step: a failure is a fault that changes nothing, a plaintext goes to the metadata or the chunk branch |
| `EndToEnd.SentIsReceived` | public/app.js:795-1106 | the prefetching sender's frames, from any starting counter, give the receiver every file back if and only if every frame may pass |
| `ReceivePath.StepConserves` | public/app.js:348-373 | each step keeps that order, and the receiver's state equal to the replay of the handled frames |
| `ReceivePath.OrderConserved` | public/app.js:523-636 | for every interleaving of arrivals with the binding, arrived frames are those handled, then those skipped after a failure, then those in the chain and the buffers, in arrival order, each once |
| `ReceivePath.ChainMoves` | public/app.js:568-574 | whatever is at the head of the chain can be dealt with, over either transport |
| `ReceivePath.RejectionPasses` | public/app.js:568-574 | a rejected link rejects the next one, throws the same fault again and runs no task |
| `ReceivePath.FailureHalts` | public/app.js:568-574 | in every run, after the first failing task none runs any more |
| `ReceivePath.SettledForGood` | public/app.js:551-563 | once the transfer promise is settled it never settles again |
| `ReceivePath.ReportedLate` | public/app.js:568-574 | a failure is reported if and only if a frame behind it has had its turn and the transfer was not complete before |
| `ReceivePath.Transport.Dispatch` | public/transport.js:31-37 | a frame reaches every handler, or waits if there is none |
| `ReceivePath.Transport.OnMessage` | public/transport.js:23-29 | a new handler first gets what waited, in order |
| `ReceivePath.Connection.OnBinary` | public/app.js:627-652 | a binary message makes the arrival step of the path |
| `ReceivePath.Connection.OnDataChannel` | public/transport.js:66-76 | a data-channel message makes its arrival step |
| `ReceivePath.Connection.FlushPendingRelay` | public/app.js:525-531 | the early messages move to the transport in order |
| `ReceivePath.Connection.BindTransport` | public/app.js:348-373 | binding, flushing and registering in one stretch make the binding step |
| `ReceivePath.Connection.RunLink` | public/app.js:568-574 | after a fulfilled link the task runs; after a rejected one the fault is reported once and thrown again |
| `ReceivePath.Connection.RunTask` | public/app.js:354-371 | one task handles one frame, and resolves, acknowledges and closes when the batch is complete |
| `Link.LinkStepOk` | relay/main.go:300-316 | one direction of the pipe delivers a prefix of what was sent and loses nothing while it holds |
| `Shutdown.HandledComplete` | public/app.js:361-371 | on any prefix of the stream the completion test fires exactly at its last frame |
| `Shutdown.RunKeeps` | public/app.js:354-371 | handling a frame keeps the system's invariant: an acknowledgement exactly when all was handled |
| `Shutdown.ActKeeps` | public/app.js:738-752 | every action of sender, pipe and receiver keeps it |
| `Shutdown.ReceiverSettles` | public/app.js:361-371 | over either transport, the transfer promise resolves if and only if every frame was handled without a fault; over the relay the receiver then acknowledges and closes, once, and otherwise it does neither |
| `Shutdown.ShutdownSafe` | public/app.js:361-371 | in every run, broken links included: at most one acknowledgement, sent if and only if every frame was handled without a fault, and with it the promise resolves and the receiver closes; the sender has closed on it only when the receiver holds every file |
| `Shutdown.NoDeadlock` | public/app.js:620-623 | a run that can go no further has closed the sender, failed a frame or lost a link |
| `ShutdownEnds.ActLighter` | public/app.js:738-752 | every action but the failure of a link lowers what is left to do, and that failure does not raise it |
| `ShutdownEnds.StepsBounded` | public/app.js:738-752 | no run has more than 8 actions for each frame and 10 more, failures of a link aside |
| `ShutdownEnds.RunEnds` | public/app.js:620-623 | a run that has used them up has closed the sender, failed a frame or lost a link |
| `RelayedTransfer.CarriedOn` | relay/main.go:300-316 | every step of the relay is, for each direction between the two clients, a step of the shutdown's link or none |
| `RelayedTransfer.RunRelated` | relay/main.go:291-322 | over whole runs of clients and relay, in either order of joining and whatever went through the pipe before, the three together are the shutdown's system |
| `RelayedTransfer.RelayedShutdownSafe` | public/app.js:361-371 | through the relay's own room machine, in a room that does not expire: the sender closes only after the receiver has handled every frame without a fault and the user holds every file, and at most one acknowledgement is sent |
| `CodingWitness.CodingSound` | public/app.js:365-367 | the clients' messages can be coded as the relay's, so the theorem about them is not empty |
| `CodingWitness.TransferCanBegin` | relay/main.go:412-427 | two clients that met can begin a transfer, whichever of them sends |
| `Shutdown.SkippedChangeNothing` | public/app.js:568-574 | handling the skipped frames too would change nothing: the first failure is the outcome of all of them |
| `RateLimit.IpRateLimiter.Allow` | relay/ratelimit.go:58-73 | the answer is the next one of the trace of requests and cleanups |
| `RateLimit.IpRateLimiter.Cleanup` | relay/ratelimit.go:86-98 | the tick is the next event of the trace |
| `RateLimit.CleanupKeeps` | relay/ratelimit.go:86-98 | after a tick a key is on record, with its own counter, if and only if its window has not passed |
| `RateLimit.CleanupForgets` | relay/ratelimit.go:86-98 | so every key on record made a request within the last window |
| `RateLimit.TableAgreesWithSolo` | relay/ratelimit.go:58-98 | a key's counter is what its own requests alone would leave, or was swept when it no longer mattered |
| `RateLimit.CleanupInvisible` | relay/ratelimit.go:58-98 | the answers to a key equal those of a limiter that never cleans up and sees only that key |
| `RateLimit.WindowCount` | relay/ratelimit.go:58-73 | a counter's count is the number of requests allowed in its window, never above the limit |
| `RateLimit.SoloBound` | relay/ratelimit.go:58-73 | any closed interval one window long holds at most 2·limit − 1 allowed requests |
| `RateLimit.SharpBound` | relay/ratelimit.go:58-98 | the same over every trace of many keys and cleanups |
| `RateLimit.DenialExplained` | relay/ratelimit.go:63-72 | a request is denied only when the limit was already allowed to its key within the window that ends with it |
| `RateLimit.FillWindow` | relay/ratelimit.go:68-72 | requests at one moment use a window up to its limit |
| `RateLimit.BoundAttained` | relay/ratelimit.go:58-73 | for every limit and window some trace reaches 2·limit − 1 |
| `RateLimit.SlidingExactly` | relay/ratelimit.go:58-73 | no interval of one window ever holds more than the limit, over all traces, if and only if the limit is one |
| `RoomInvariant.TakeSlotKeeps` | relay/main.go:382-438 | joining and pairing keep the invariant |
| `RoomInvariant.ExpireTaskKeeps` | relay/main.go:235-250 | expiring a room under its clients keeps it |
| `RoomInvariant.DeleteKeeps` | relay/main.go:226-231 | deleting by name keeps it |
| `RoomInvariant.StepKeeps` | relay/main.go:204-439 | every step of handlers, pipes, cleanup and close handlers keeps it |
| `RoomInvariant.RunInv` | relay/main.go:204-439 | it holds in every reachable state |
| `RoomSafety.MachineSafe` | relay/main.go:192-439 | in every reachable state the table is within MaxRooms, a second slot implies a first and a closed ready, a connection sits in one slot of one room, and whoever blocks on ready owns the first slot |
| `RoomAdmission.LookUp` | relay/main.go:204-224 | a name leads to its room, or to a new empty one while there is capacity, and otherwise the client is refused |
| `RoomAdmission.SlotGiven` | relay/main.go:382-438 | a free slot is given, the first one first; a third client is refused |
| `RoomAdmission.RefusedAreTold` | relay/main.go:372-379 | in every reachable state a refused client has heard why, nothing else, and is closed |
| `RoomAdmission.GoesThrough` | relay/main.go:300-316 | between open sockets an idle direction can read any message and forwards just that one |
| `RoomCleanup.SweptRoomEnds` | relay/main.go:252-275 | a room that a tick removed is out of the table, and in every later state, whatever the handlers do, it is expired and done or cleanup's next task for it can be taken |
| `RoomCleanup.WatchStarts` | relay/main.go:277-289 | the first client's close handler puts its room on the same way |
| `RoomCleanup.ExpiryEmpties` | relay/main.go:235-250 | expiry empties both slots and closes ready and both sockets |
| `RoomSockets.RunSockets` | relay/main.go:241-302 | in every reachable state a pipe's ended direction has closed its target, and its ends are in their slots or closed |
| `RoomWaits.NeverStuck` | relay/main.go:395-432 | without timers and without the clients, a handler can move if and only if it has not returned and does not wait for a second client, for done, or for a message on a pipe with both sockets open |
| `RoomWaits.NoStranded` | relay/main.go:426-432 | without the timer a second client can leave if and only if done is closed; until then a first client of its room has still to return, and can move or pipes a transfer whose sockets are open |
| `RoomWaits.FirstDescends` | relay/main.go:384-410 | a first client's own steps, forwarding aside, bring it nearer its return, and no other step moves it |
| `RoomWaits.EndBreaks` | relay/main.go:302-316 | the end of one direction breaks the pipe, because it closes the other side |
| `RoomWaits.ExpiryBreaks` | relay/main.go:235-250 | the expiry of a room breaks its pipe |
| `RoomWaits.WindingDown` | relay/main.go:300-322 | in every run a broken pipe ends: its handler can always move, and after a bounded number of own steps, messages left in the read buffers included, has returned and closed done |
| `RoomWaits.ReturnCloses` | relay/main.go:402 | a first client that has returned has closed done |
| `RoomPairing.StepPairs` | relay/main.go:291-432 | every step keeps the pairing invariant of rooms that never expired |
| `RoomPairing.OnePipe` | relay/main.go:291-322 | in a room that never expired at most one pipe ever starts, exactly when its first client has read the slots, between its one first and one second client |
| `RoomPairing.PairStreams` | relay/main.go:300-316 | there each side has been forwarded a prefix, in order and without duplicates, of what the other yielded after its join, at most one message being on its way, after all its control messages |
| `RoomPairing.NeverWasExpired` | relay/main.go:235-250 | expiry is for ever |
| `RoomLink.StepSimulates` | relay/main.go:300-316 | every step of the relay is, for each direction of a pair that never expired, one step of its link or none |
| `RoomLink.RunLinks` | relay/main.go:291-322 | over a whole run each direction of such a pair is a run of a link that starts with what its client sends |
| `RoomLink.LinkRunOk` | relay/main.go:300-316 | so the room machine delivers a prefix, in order and without duplicates, of what was sent |
| `RoomLink.ClientsAgree` | relay/main.go:300-316 | and the clients at both ends may send and receive at any time |
| `RoomReach.LostExactly` | relay/main.go:226-231 | a step takes a waiting room out of reach if and only if a handler of another Room object of that name deletes the name |
| `RoomReach.RunReach` | relay/main.go:204-231 | if rooms are only created after every handler of an earlier one returned, every waiting room stays in reach |
| `RoomReach.WaitingReachable` | relay/main.go:384-410 | under that proviso a client that waits is in the room its name leads to, or cleanup is about to expire it |
| `RoomReach.WaitStep` | relay/main.go:384-427 | a waiting client goes on waiting until a second client pairs with it or its room expires, whatever step is taken |
| `RoomReach.NextJoinPairs` | relay/main.go:412-427 | the next client that looks the name up pairs with the one that waits there, whatever the others do between its look-up and its lock, unless one of them already ended the wait |
| `RoomReach.WaitingCanBeLost` | relay/main.go:226-231 | without the proviso: a run of three clients, with no timeout and no cleanup, in which the third waits where no join can find it |
| `RelayRooms.Room.CloseReady` | relay/main.go:192-198 | ready is closed afterwards, and the channel never a second time |
| `RelayRooms.Room.CloseDone` | relay/main.go:200-202 | done is closed afterwards, and the channel never a second time |
| `RelayRooms.Room.Expire` | relay/main.go:235-250 | the slots are emptied, their connections closed and ready closed: the expiry step |
| `RelayRooms.Room.TakeSlot` | relay/main.go:382-438 | first, second or full: the room makes the step of that case, each client is told exactly what it should be, and a third one is closed |
| `RelayRooms.Forward` | relay/main.go:300-316 | the loop forwards a prefix of what it read, one message short at most, and closes the other end |
| `RelayRooms.Relay.GetOrCreateRoom` | relay/main.go:204-224 | the room of the name, a new one, or none exactly when the table is full |
| `RelayRooms.Relay.DeleteRoom` | relay/main.go:226-231 | only the name goes |
| `RelayRooms.Relay.Sweep` | relay/main.go:256-268 | exactly the rooms idle longer than the limit leave the table, each listed once |
| `RelayRooms.Relay.ExpireAll` | relay/main.go:270-273 | every listed room is expired and its done closed |
| `RelayRooms.Relay.CleanupTick` | relay/main.go:252-275 | when no handler runs in between, after a tick exactly the idle rooms are gone, expired and done, and every other room is as it was |

## Left out

- AES-GCM, SHA-256 and the PAKE: the cipher is symbolic and ideal, the key exchange is over when the model starts.
- JSON and UTF-8: an abstract encoder and decoder that round-trip on the records a sender makes.
- WebRTC negotiation and its timers: which mode each end chose is given; `Shutdown` takes both ends to be bound to relay.
- A first PAKE message that arrives while the receiver is still in `paired` is dropped by the code; the model starts later.
- Loading the WASM module: the worker is taken to be ready.
- Characters are Dafny's `char`; JavaScript counts UTF-16 code units. Upper-casing for device names covers ASCII letters only.
- `Math.ceil(size / chunkSize)` is exact integer division; sizes are far below 2^53.
- Sizes, counters and times are unbounded integers except the 64-bit nonce counter and the 32-bit fields of the binding.
- HostileChannel.Integrity: does not claim the order of files or that each comes once, because all metadata frames share one binding.
- RateLimit.SharpBound: takes non-decreasing times; the code reads the clock before it takes the lock.
- RelayRooms.Relay.CleanupTick: one thread runs it; handlers between the locked sweep and the expiries are in `Rooms`, where they are separate steps and `RoomCleanup.SweptRoomEnds` says what remains true.
- RoomInvariant.RunInv: takes which rooms are stale and when timers fire as free choices, so the 35-minute wait and the inactivity limit have no length there.
- RoomPairing.PairStreams: takes one WriteMessage as one step, and does not order "waiting" and "paired" at the first client, because the code writes the former after unlocking.
- RelayedTransfer.RelayedShutdownSafe: takes a room that does not expire during the transfer; expiry ends the pipe and with it the links.
- RoomWaits.WindingDown: does not claim that a pipe ends while both its sockets are open and both clients stay; nor does it bound how long a write takes.
- A socket the relay closed may still yield the messages that were in its read buffer, any number of them; then every read fails, and every write does at once.
- The first client's close handler may fire at any moment it is registered, or never; the library that calls it is not part of this model.
- RelayRooms.Forward: takes the messages its source yields and the number of writes that succeed as inputs.
- A failed transport set-up, and the receiver's other ways to settle the transfer promise (close and error events of the socket), are not part of this model.
- The relay's checks before a join (join message, room name length, rate limit) only refuse connections.
- Close-time resolution at the receiver, back-pressure thresholds, progress text and all display.
- HTTP middleware, configuration, STUN reports, TURN credentials, logging and deployment.
