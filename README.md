# FBControlCore futures, process stream containers and archive operations in Dafny

This project models three parts of FBControlCore, the support library of
FBSimulatorControl:

- **FBFuture** (`Futures.dfy`, `MutableFutures.dfy`, `FutureContexts.dfy`).
  A future is Running or resolved. A resolved future is Done with a result,
  Failed with an error, or Cancelled. The combinators (`map`, `fmap`,
  `chain`, `handleError`, `mapReplace`, `fmapReplace`, `fallback`,
  `futureWithFutures`) are functions from the receiver's outcome to
  the derived future's outcome. `FBMutableFuture` is a class whose
  `state`/`result`/`error` fields are set by the `resolve…` methods and by
  `cancel`. The first resolution wins and later ones change nothing.
  `+race:` is a method that cancels every future it was given.
  `FBFutureContext` is a class holding a future and a stack of teardown
  blocks. `pop` returns the derived future and the teardown calls. Those
  calls unwind the stack last-pushed-first, and each one is told the
  popped future's final state.
- **FBProcessOutput / FBProcessInput / FBProcessFileOutput**
  (`ProcessStreams.dfy`). An output container is a class over a destination
  with one variant per initializer: null device, file path, input stream,
  data consumer, logger, appended `NSMutableData`, and a string view of that
  same data. An input container is a class over an origin: consumer,
  output stream, or fixed data. All containers share the `FBStandardStream`
  lifecycle Unattached → Attached → Detached. It is stated as a step
  function, and lemmas about it hold for every sequence of attaches and
  detaches. The file bridge is a start/write/stop state machine, also
  stated as a step function. The pump copies bytes chunk by chunk. One
  method proves that fixed input data sent through a copying process into
  an `NSMutableData` output reproduces exactly that data.
- **FBArchiveOperations** (`ArchiveOperations.dfy`). `headerMagicForData`
  is a total classifier over the first four bytes. The zip local-file-header
  signature `50 4B 03 04` gives IPA (section 4.3.7 of the PKWARE .ZIP File
  Format Specification). The gzip bytes `1F 8B` give TAR (section 2.3.1 of
  RFC 1952). Anything else gives Unknown. `headerMagicForFile` applies the
  classifier to a file's leading bytes. The extraction methods run a
  `Command` whose exit status comes from an oracle passed in as a
  parameter. They resolve with the extraction path exactly when the tool
  exits with 0. An Unknown header fails with `UnsupportedFormat` and runs
  nothing.

Bytes are `seq<bv8>`. NSError is the datatype `Futures.Error`. NSNull is
`ProcessStreams.Unit`. A file system is a `map<string, seq<bv8>>`.

The model follows the declarations and doc comments of these headers.
Where they leave the behaviour open, the model makes these choices:

- Data shorter than four bytes is Unknown, including data that starts
  with `1F 8B`. An uncompressed tar (ustar) header is not recognised.
  The header names TAR but gives no signature; the gzip bytes are the one
  TAR signature modelled.
- The header of `chain` first says the block runs on every non-cancelled
  resolution, then lists Cancelled among the events. The model follows
  the first sentence: a cancelled receiver gives a cancelled result.
- "The first" error of `futureWithFutures` and "the first" future of
  `race` are first in completion order. That order is a parameter,
  because scheduling is not modelled. The first member, in completion
  order, that did not succeed decides the composite: its error, or
  Cancelled.
- A second `startReading` fails with `AlreadyReading`. A `stopReading`
  while not reading fails with `NotReading`. A file-path output is its own
  file output: writes reach the file at once, and start/stop do nothing.
- The null-device and file-path outputs hand out a file handle from
  `attachToPipeOrFileHandle`. Every other output hands out a pipe.
- Bytes written to the file after `stopReading` are kept in the file and
  not forwarded to the destination.
- Detaching an input closes it. Writes to fixed data, or to a closed
  input, fail with `SourceAlreadyClosed`.

## Model

| member | source | states |
|---|---|---|
| Futures.StateCode | FBControlCore/Async/FBFuture.h:19-24 | every state has a code in 1..4, and code 1 is exactly Running |
| Futures.StateCodesAsDeclared | FBControlCore/Async/FBFuture.h:19-24 | Done is 2, Failed is 3, Cancelled is 4, and no two states share a code |
| Futures.Outcome.State | FBControlCore/Async/FBFuture.h:16-24 | an outcome's state is never Running; it is Done and Failed exactly for those outcomes, so Cancelled for a cancellation |
| Futures.Future.State | FBControlCore/Async/FBFuture.h:322-325 | Running exactly while pending; a resolved future reports its outcome's state |
| Futures.Future.HasCompleted | FBControlCore/Async/FBFuture.h:307-310 | hasCompleted is true exactly when the state is not Running |
| Futures.Future.Result | FBControlCore/Async/FBFuture.h:317-320 | a result is present exactly in the Done state, and it is the Done outcome's value |
| Futures.Future.Error | FBControlCore/Async/FBFuture.h:312-315 | an error is present exactly in the Failed state, and it is the Failed outcome's error |
| Futures.FutureWithResult | FBControlCore/Async/FBFuture.h:35-41 | the future is Done, carries the given result and has no error |
| Futures.FutureWithError | FBControlCore/Async/FBFuture.h:43-49 | the future is Failed, carries the given error and has no result |
| Futures.Complete | FBControlCore/Async/FBFuture.h:369-383 | after a resolution attempt the future has completed; a future that had already completed is unchanged |
| Futures.CompletedIsFinal | FBControlCore/Async/FBFuture.h:343-383 | no sequence of later resolution attempts changes a completed future |
| Futures.FirstResolutionWins | FBControlCore/Async/FBFuture.h:343-383 | a running future ends with the outcome of the first of any sequence of resolutions |
| Futures.Map | FBControlCore/Async/FBFuture.h:191-198 | map keeps the receiver's state; on Done the block's value is the result, and an error passes through unchanged |
| Futures.FMap | FBControlCore/Async/FBFuture.h:182-189 | on Done the derived future is the block's future; errors pass through unchanged and cancellation stays cancellation |
| Futures.Chain | FBControlCore/Async/FBFuture.h:172-180 | the block decides every Done or Failed resolution; a cancelled receiver gives a cancelled result |
| Futures.HandleError | FBControlCore/Async/FBFuture.h:200-207 | the handler decides a Failed outcome; Done and Cancelled pass through unchanged |
| Futures.MapReplaceReplacesOnlyResults | FBControlCore/Async/FBFuture.h:240-246 | mapReplace replaces a result with the replacement and leaves an error or a cancellation as it was |
| Futures.FMapReplaceWaitsForSuccess | FBControlCore/Async/FBFuture.h:248-254 | fmapReplace gives the second future after a success and otherwise keeps the receiver's final state |
| Futures.FallbackShieldsFailure | FBControlCore/Async/FBFuture.h:256-262 | fallback turns an error into Done(replacement), leaves other outcomes alone, and never fails |
| Futures.MapIsFMapOfResult | FBControlCore/Async/FBFuture.h:182-198 | map equals fmap with a block that returns an already-resolved future |
| Futures.MapComposes | FBControlCore/Async/FBFuture.h:191-198 | mapping twice equals mapping once with the composed block |
| Futures.FMapAssociates | FBControlCore/Async/FBFuture.h:182-189 | flat-mapping twice equals flat-mapping once with the chained block |
| Futures.FMapIsChainOnResults | FBControlCore/Async/FBFuture.h:172-189 | fmap equals chain with a block that flat-maps each non-cancelled resolution |
| Futures.FirstUnsuccessful | FBControlCore/Async/FBFuture.h:105-113 | finds the first future in completion order that did not succeed, and every future before it succeeded; when none is found all succeeded |
| Futures.FutureWithFutures | FBControlCore/Async/FBFuture.h:105-113 | Done exactly when all are Done, with every result in input order; a failure carries the error of one of the futures; a cancellation comes from a cancelled one |
| Futures.FirstUnsuccessfulDecides | FBControlCore/Async/FBFuture.h:105-113 | when the k-th future to complete is the first unsuccessful one, the composite fails with its error if it failed and is Cancelled if it was cancelled |
| Futures.FutureWithFuturesIgnoresCompletionOrder | FBControlCore/Async/FBFuture.h:105-113 | when all succeed the composite does not depend on the completion order |
| MutableFutures.MutableFuture.constructor | FBControlCore/Async/FBFuture.h:343-349 | a new mutable future is Running |
| MutableFutures.MutableFuture.HasCompleted | FBControlCore/Async/FBFuture.h:307-310 | the object's hasCompleted agrees with its future's |
| MutableFutures.MutableFuture.ResolveWithResult | FBControlCore/Async/FBFuture.h:369-375 | a running future becomes Done with the result; a completed one is unchanged |
| MutableFutures.MutableFuture.ResolveWithError | FBControlCore/Async/FBFuture.h:377-383 | a running future becomes Failed with the error; a completed one is unchanged |
| MutableFutures.MutableFuture.Cancel | FBControlCore/Async/FBFuture.h:127-137 | a running future becomes Cancelled; a completed one is unchanged |
| MutableFutures.MutableFuture.ResolveFromFuture | FBControlCore/Async/FBFuture.h:385-391 | the receiver takes over the other future's outcome once that one has completed, and nothing happens while it runs |
| MutableFutures.Race | FBControlCore/Async/FBFuture.h:115-123 | the race resolves with the outcome of the future that completed first; every future that was still running ends Cancelled and the others keep their outcome |
| FutureContexts.Unwind | FBControlCore/Async/FBFuture.h:437-446 | teardown calls run one per registered teardown, last registered first, each with its value and the popped future's state |
| FutureContexts.UnwindStacked | FBControlCore/Async/FBFuture.h:458-466 | the teardowns of a pushed context all run before those of the context it was stacked on |
| FutureContexts.FutureContext.WithFuture | FBControlCore/Async/FBFuture.h:411-417 | the context wraps the future and has no teardown |
| FutureContexts.FutureContext.WithResult | FBControlCore/Async/FBFuture.h:419-425 | the context wraps a Done future and has no teardown |
| FutureContexts.FutureContext.WithError | FBControlCore/Async/FBFuture.h:427-433 | the context wraps a Failed future and has no teardown |
| FutureContexts.FutureContext.ContextualTeardown | FBControlCore/Async/FBFuture.h:209-220 | the teardown is registered, with the value, only if the receiver resolved with a value |
| FutureContexts.FutureContext.AddTeardown | FBControlCore/Async/FBFuture.h:468-475 | a teardown for the context's value goes on top of the stack; nothing is added when there is no value |
| FutureContexts.FutureContext.Pend | FBControlCore/Async/FBFuture.h:448-456 | the new context fmaps the future and keeps the same teardowns alive |
| FutureContexts.FutureContext.Push | FBControlCore/Async/FBFuture.h:458-466 | on a value, the block's context is stacked above this one; otherwise the failure is kept and nothing is stacked |
| FutureContexts.FutureContext.Pop | FBControlCore/Async/FBFuture.h:437-446 | the result is the fmapped future; then every teardown runs once, last pushed first, each told that future's final (non-Running) state |
| ProcessStreams.ChunksConcat | FBControlCore/Utility/FBArchiveOperations.h:65-74 | a byte stream cut into pieces of any fixed size n joins back to the same bytes |
| ProcessStreams.AttachAtMostOnce | FBControlCore/Utility/FBProcessStream.h:21-34 | in any sequence of attaches and detaches, at most one attach succeeds, and none unless the container starts unattached |
| ProcessStreams.DetachedIsFinal | FBControlCore/Utility/FBProcessStream.h:36-41 | after a detach the container stays detached and no later attach succeeds |
| ProcessStreams.ProcessOutput.ForNullDevice | FBControlCore/Utility/FBProcessStream.h:101-106 | the null-device variant, unattached |
| ProcessStreams.ProcessOutput.ForFilePath | FBControlCore/Utility/FBProcessStream.h:108-114 | the file-path variant holding the given path, unattached |
| ProcessStreams.ProcessOutput.ToInputStream | FBControlCore/Utility/FBProcessStream.h:116-121 | the input-stream variant over a new, empty stream |
| ProcessStreams.ProcessOutput.ForDataConsumer | FBControlCore/Utility/FBProcessStream.h:123-138 | the consumer variant over the given consumer |
| ProcessStreams.ProcessOutput.ForLogger | FBControlCore/Utility/FBProcessStream.h:140-146 | the logger variant over the given logger |
| ProcessStreams.ProcessOutput.ToMutableData | FBControlCore/Utility/FBProcessStream.h:148-154 | the mutable-data variant over the caller's buffer |
| ProcessStreams.ProcessOutput.ToStringBackedByMutableData | FBControlCore/Utility/FBProcessStream.h:156-162 | the string variant over the caller's buffer |
| ProcessStreams.ProcessOutput.Contents | FBControlCore/Utility/FBProcessStream.h:101-169 | contents is NSNull for the null device, the path for a file, the stream for an input-stream output, the consumer for a consumer output, the logger for a logger output, the caller's buffer itself (holding every received byte) for mutable data, and the decoding of that same buffer for the string view |
| ProcessStreams.ProcessOutput.AttachToFileHandle | FBControlCore/Utility/FBProcessStream.h:21-26 | a file handle exactly when unattached, and then Attached; otherwise fails with AlreadyAttached and the state is kept |
| ProcessStreams.ProcessOutput.AttachToPipeOrFileHandle | FBControlCore/Utility/FBProcessStream.h:28-34 | attaches once like attachToFileHandle, returning a pipe exactly when the destination can take one and a file handle otherwise |
| ProcessStreams.ProcessOutput.Detach | FBControlCore/Utility/FBProcessStream.h:36-41 | always succeeds and leaves the container Detached, whether or not it was attached or already detached |
| ProcessStreams.ProcessOutput.Deliver | FBControlCore/Utility/FBProcessStream.h:148-162 | the bytes are appended to the destination after what it held, and nothing else changes; the null device drops them |
| ProcessStreams.ProcessOutput.WriteToHandle | FBControlCore/Utility/FBProcessStream.h:21-34 | bytes written to the attached handle reach the native destination, appended in order |
| ProcessStreams.ProcessOutput.ProvidedThroughConsumer | FBControlCore/Utility/FBProcessStream.h:80-85 | a new consumer that feeds this container |
| ProcessStreams.OutputConsumer.ConsumeData | FBControlCore/Utility/FBProcessStream.h:80-85 | data given to that consumer is appended to the container's destination |
| ProcessStreams.ProcessOutput.ProvidedThroughFile | FBControlCore/Utility/FBProcessStream.h:72-78 | a file output for this container, not yet reading; its path is the container's own path for a file-path output and a scratch path otherwise |
| ProcessStreams.MutableData.Append | FBControlCore/Utility/FBProcessStream.h:148-154 | the buffer only grows: new bytes go after the old ones |
| ProcessStreams.BridgeStepValid | FBControlCore/Utility/FBProcessStream.h:45-63 | every start, write or stop keeps forwarded bytes within written ones, and bytes already delivered stay delivered |
| ProcessStreams.FollowedWritesArrive | FBControlCore/Utility/FBProcessStream.h:55-58 | while reading, every write to the path reaches the destination as it happens |
| ProcessStreams.StoppedWritesStay | FBControlCore/Utility/FBProcessStream.h:60-63 | after stopReading, later writes are not forwarded |
| ProcessStreams.ProtocolDeliversWrittenBytes | FBControlCore/Utility/FBProcessStream.h:45-63 | start, writes, stop, more writes: exactly the bytes written between start and stop reach the destination, in order |
| ProcessStreams.FileOutput.StartReading | FBControlCore/Utility/FBProcessStream.h:55-58 | the first start passes on what was written so far and begins following the file; a repeated start fails with AlreadyReading |
| ProcessStreams.FileOutput.WriteFile | FBControlCore/Utility/FBProcessStream.h:50-53 | a write to the path is recorded and, while reading, reaches the destination |
| ProcessStreams.FileOutput.StopReading | FBControlCore/Utility/FBProcessStream.h:60-63 | stops following the file; fails with NotReading unless reading |
| ProcessStreams.ProcessInput.FromConsumer | FBControlCore/Utility/FBProcessStream.h:180-186 | the consumer variant, unattached, nothing sent |
| ProcessStreams.ProcessInput.FromStream | FBControlCore/Utility/FBProcessStream.h:188-194 | the output-stream variant, unattached, nothing sent |
| ProcessStreams.ProcessInput.FromData | FBControlCore/Utility/FBProcessStream.h:196-202 | the fixed-data variant holding the given data |
| ProcessStreams.ProcessInput.Contents | FBControlCore/Utility/FBProcessStream.h:180-209 | contents is the consumer for a consumer input, the output stream for a stream input, and the fixed data exactly for a fixed-data input |
| ProcessStreams.ProcessInput.AttachToFileHandle | FBControlCore/Utility/FBProcessStream.h:21-26 | attaches once; fixed data is then sent whole, in order, and the input is closed |
| ProcessStreams.ProcessInput.AttachToPipeOrFileHandle | FBControlCore/Utility/FBProcessStream.h:28-34 | attaches once, as a pipe, with the same effect on fixed data |
| ProcessStreams.ProcessInput.Write | FBControlCore/Utility/FBProcessStream.h:180-194 | bytes written through the consumer or stream are appended in order; fixed data and a closed input refuse them with SourceAlreadyClosed |
| ProcessStreams.ProcessInput.EndOfInput | FBControlCore/Utility/FBProcessStream.h:180-194 | signalling end of file closes the input and keeps what was sent |
| ProcessStreams.ProcessInput.Detach | FBControlCore/Utility/FBProcessStream.h:36-41 | always succeeds, leaves the input Detached and closed, and keeps what was sent |
| ProcessStreams.Pump | FBControlCore/Utility/FBProcessStream.h:28-34 | copying bytes chunk by chunk into an attached output appends all of them to its destination, in order (the null device drops them) |
| ProcessStreams.RoundTripFixedData | FBControlCore/Utility/FBProcessStream.h:196-202 | fixed input bytes copied through a process into a mutable-data output are appended to the buffer exactly |
| ArchiveOperations.MagicValue | FBControlCore/Utility/FBArchiveOperations.h:17-24 | every magic has a value in 0..2, and 0 is exactly Unknown |
| ArchiveOperations.MagicValuesAsDeclared | FBControlCore/Utility/FBArchiveOperations.h:17-24 | TAR is 1, IPA is 2, and no two magics share a value |
| ArchiveOperations.HeaderMagicForData | FBControlCore/Utility/FBArchiveOperations.h:99-105 | IPA exactly for the zip signature, TAR exactly for the gzip bytes, Unknown exactly for short data or neither |
| ArchiveOperations.HeaderMagicIgnoresTail | FBControlCore/Utility/FBArchiveOperations.h:99-105 | appending bytes after a full header never changes the classification |
| ArchiveOperations.HeaderMagicOfLeadingBytes | FBControlCore/Utility/FBArchiveOperations.h:99-105 | the classification of data is that of its first four bytes; shorter data is Unknown |
| ArchiveOperations.ClassifierExamples | FBControlCore/Utility/FBArchiveOperations.h:17-24 | `50 4B 03 04` is IPA, `1F 8B 08 00` is TAR, four zero bytes, empty data and three bytes of the zip signature are Unknown |
| ArchiveOperations.HeaderMagicForFile | FBControlCore/Utility/FBArchiveOperations.h:107-113 | the file's magic is the data classifier applied to its contents; a missing file is Unknown |
| ArchiveOperations.RunExtraction | FBControlCore/Utility/FBArchiveOperations.h:31-51 | a tool run resolves with the extraction path exactly when the tool exits with 0, and otherwise fails with its exit status |
| ArchiveOperations.ExtractZipArchiveAtPath | FBControlCore/Utility/FBArchiveOperations.h:31-40 | runs the zip tool once on the path; succeeds with the extraction path exactly when the tool succeeds |
| ArchiveOperations.ExtractTarArchiveAtPath | FBControlCore/Utility/FBArchiveOperations.h:42-51 | runs the tar tool once on the path; succeeds with the extraction path exactly when the tool succeeds |
| ArchiveOperations.ExtractArchiveAtPath | FBControlCore/Utility/FBArchiveOperations.h:53-63 | IPA runs zip, TAR runs tar, Unknown runs nothing and fails with UnsupportedFormat; success exactly when the one tool run succeeds, with the extraction path; a tool that exits non-zero fails the result with its exit status |
| ArchiveOperations.StreamedBytesIgnoreWriteBoundaries | FBControlCore/Utility/FBArchiveOperations.h:65-74 | what tar reads from a stream does not depend on how the producer split its bytes into writes |
| ArchiveOperations.StreamedBytesIgnoreChunking | FBControlCore/Utility/FBArchiveOperations.h:65-74 | in particular, the pump's fixed-size chunks give tar the same bytes as one whole write |
| ArchiveOperations.ExtractTarArchiveFromStream | FBControlCore/Utility/FBArchiveOperations.h:65-74 | always tar, reading the stream's bytes in order from standard input; an already-attached stream fails without running anything and is left as it was; after a run the stream is detached and closed, and what it sent is exactly what tar read; success exactly when tar succeeds, with the extraction path, and a non-zero exit fails the result with that status |

## Left out

- Dispatch queues, callback order, delays and timeouts are not modelled, because they are timing and concurrency. This covers `futureWithDelay`, `delay:`, `timeout:waitingFor:`, `onQueue:resolveWhen:`, `onQueue:resolveUntil:`, `onQueue:resolve:`, `notifyOfCompletion:`, `doOnResolved:` and `respondToCancellation:`.
- `resolveValue:` is not modelled. It runs a caller's block once, synchronously, and resolves with that block's value or error. That is `FutureWithResult` or `FutureWithError` applied to the result of a foreign call.
- Naming, logging and message formatting are not modelled, because they are string formatting: `named:`, `nameFormat:`, `futureWithName:`, `futureWithNameFormat:`, `rephraseFailure:` and `logCompletion:withPurpose:`.
- `-[FBFuture pushTeardown:]` is not a separate member. It is `Push` applied to a context made by `WithFuture`.
- `-[FBFutureContext enter:]` is not modelled: its teardown waits on a future the caller resolves later, which is scheduling.
- MutableFutures.Race: a race over an empty array is outside the model, since nothing can complete first. The header says nothing about it.
- MutableFutures.Race: which future completed first is a parameter, because scheduling is not modelled.
- MutableFutures.MutableFuture.ResolveFromFuture: the call stands for the moment `other` completes. Registering on a still-running future and resolving later is not modelled, so a call with a Running `other` changes nothing.
- FutureContexts.FutureContext.Push: requires the block to return an already-allocated context. This is a condition of Dafny's heap model, not of the source.
- `gzipPath` and `createTarForPath` are not modelled: all they do is start an external tool with its stdout on an input-stream output, which is the `ToInputStream` container.
- Real OS resources are not modelled: pipes, file handles, `/dev/null`, and background pump threads. The pump is a sequential loop, so detaching drains every byte first. Scratch paths are parameters. `SinkUnavailable` never arises, since creating a destination cannot fail without a real file system.
- A logger receives bytes; splitting them into lines is not modelled.
- The string view's text is the buffer decoded by a function passed as a parameter. That decoding is a Foundation call.
- The logger argument of `outputForDataConsumer:logger:` is only used for logging and is dropped.
- NSInputStream, NSOutputStream and FBDataConsumer internals are abstract byte sinks, and `DataConsumer` records what they receive.
- The external tools are an exit-status oracle, `exitStatus: Command -> int`. What they write to the extraction path is not modelled.
- ArchiveOperations.ExtractTarArchiveFromStream: the producer writes to the stream concurrently in the source. Here its chunks are a parameter, written in order before the tool exits.
