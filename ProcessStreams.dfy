// FBProcessOutput, FBProcessInput and FBProcessFileOutput: containers that
// connect a process's standard streams to destinations and origins, with the
// attach/detach lifecycle of FBStandardStream.

module ProcessStreams {
  import opened Futures

  type Byte = bv8

  /** NSNull, the value of futures that carry no result. */
  datatype Unit = Unit

  /** The bytes of a sequence of chunks, in order. */
  function Concat(chunks: seq<seq<Byte>>): seq<Byte>
  {
    if chunks == [] then [] else chunks[0] + Concat(chunks[1..])
  }

  lemma {:induction false} ConcatAppend(a: seq<seq<Byte>>, b: seq<seq<Byte>>)
    ensures Concat(a + b) == Concat(a) + Concat(b)
  {
    if a == [] {
      assert a + b == b;
    } else {
      assert (a + b)[1..] == a[1..] + b;
      ConcatAppend(a[1..], b);
    }
  }

  /** Splits bytes into the chunks a pump of buffer size n reads. */
  function Chunks(s: seq<Byte>, n: nat): (chunks: seq<seq<Byte>>)
    requires n > 0
    ensures forall k :: 0 <= k < |chunks| ==> 0 < |chunks[k]| <= n
    decreases |s|
  {
    if |s| <= n then (if s == [] then [] else [s]) else [s[..n]] + Chunks(s[n..], n)
  }

  /** However the bytes are chunked, the chunks put back together are the same bytes. */
  lemma {:induction false} ChunksConcat(s: seq<Byte>, n: nat)
    requires n > 0
    ensures Concat(Chunks(s, n)) == s
    decreases |s|
  {
    if |s| > n {
      var rest := Chunks(s[n..], n);
      ChunksConcat(s[n..], n);
      assert ([s[..n]] + rest)[1..] == rest;
      assert s[..n] + s[n..] == s;
    } else if s != [] {
      assert [s][1..] == [];
    }
  }

  // ---------------------------------------------------------------------
  // FBStandardStream: the attach/detach lifecycle
  // ---------------------------------------------------------------------

  datatype StreamState = Unattached | Attached | Detached

  datatype StreamOp = Attach | Detach

  /** The lifecycle: one attach, from Unattached only; detach from anywhere, to Detached. */
  function Step(s: StreamState, op: StreamOp): StreamState
  {
    match op
    case Attach => if s == Unattached then Attached else s
    case Detach => Detached
  }

  /** Whether the operation's future resolves successfully. */
  predicate Succeeds(s: StreamState, op: StreamOp)
  {
    op == Detach || s == Unattached
  }

  function Run(s: StreamState, ops: seq<StreamOp>): StreamState
    decreases |ops|
  {
    if ops == [] then s else Run(Step(s, ops[0]), ops[1..])
  }

  /** How many attach operations of the sequence succeed. */
  function SuccessfulAttaches(s: StreamState, ops: seq<StreamOp>): nat
    decreases |ops|
  {
    if ops == [] then 0
    else (if ops[0] == Attach && Succeeds(s, ops[0]) then 1 else 0) + SuccessfulAttaches(Step(s, ops[0]), ops[1..])
  }

  /** Whatever operations follow, a container is attached at most once. */
  lemma {:induction false} AttachAtMostOnce(s: StreamState, ops: seq<StreamOp>)
    ensures SuccessfulAttaches(s, ops) <= if s == Unattached then 1 else 0
    decreases |ops|
  {
    if ops != [] {
      AttachAtMostOnce(Step(s, ops[0]), ops[1..]);
    }
  }

  /** After a detach nothing attaches again: the container stays torn down. */
  lemma {:induction false} DetachedIsFinal(ops: seq<StreamOp>)
    ensures Run(Detached, ops) == Detached
    ensures SuccessfulAttaches(Detached, ops) == 0
    decreases |ops|
  {
    if ops != [] {
      DetachedIsFinal(ops[1..]);
    }
  }

  /** What an attach hands to the process: an NSPipe, or a plain NSFileHandle. */
  datatype Attachment = Pipe | FileHandle

  // ---------------------------------------------------------------------
  // Destinations outside this core
  // ---------------------------------------------------------------------

  /** NSMutableData owned by the caller: the containers only append to it. */
  class MutableData {
    var bytes: seq<Byte>

    constructor (initial: seq<Byte>)
      ensures bytes == initial
    {
      bytes := initial;
    }

    method Append(b: seq<Byte>)
      modifies this
      ensures bytes == old(bytes) + b
    {
      bytes := bytes + b;
    }
  }

  /**
   * A byte sink outside this core: an FBDataConsumer, a logger, the file at a
   * path, or the far end of an NSInputStream. It records what it was given.
   */
  class DataConsumer {
    var consumed: seq<Byte>

    constructor ()
      ensures consumed == []
    {
      consumed := [];
    }

    method ConsumeData(b: seq<Byte>)
      modifies this
      ensures consumed == old(consumed) + b
    {
      consumed := consumed + b;
    }
  }

  // ---------------------------------------------------------------------
  // FBProcessOutput
  // ---------------------------------------------------------------------

  /** The native destination of an output container, one variant per initializer. */
  datatype Destination =
    | NullDevice
    | FilePath(path: string, file: DataConsumer)
    | InputStream(stream: DataConsumer)
    | Consumer(consumer: DataConsumer)
    | Logger(logger: DataConsumer)
    | MutableDataBuffer(data: MutableData)
    | StringBackedData(data: MutableData)

  /** The `contents` property: its type is fixed by the variant. */
  datatype OutputContents =
    | NullContents                          // NSNull
    | PathContents(path: string)            // NSString, the file path
    | StreamContents(stream: DataConsumer)  // NSInputStream to read the output from
    | ConsumerContents(consumer: DataConsumer)
    | LoggerContents(logger: DataConsumer)
    | DataContents(data: MutableData)       // the caller's NSMutableData itself
    | StringContents(text: string)          // NSString decoded from that data

  class ProcessOutput {
    const destination: Destination
    var stream: StreamState

    /** +outputForNullDevice */
    constructor ForNullDevice()
      ensures destination == NullDevice && stream == Unattached
    {
      destination, stream := NullDevice, Unattached;
    }

    /** +outputForFilePath: `file` stands for the file at `path`. */
    constructor ForFilePath(path: string, file: DataConsumer)
      ensures destination == FilePath(path, file) && stream == Unattached
    {
      destination, stream := FilePath(path, file), Unattached;
    }

    /** +outputToInputStream: the container makes the stream the caller reads. */
    constructor ToInputStream()
      ensures destination.InputStream? && fresh(destination.stream) && stream == Unattached
      ensures destination.stream.consumed == []
    {
      var s := new DataConsumer();
      destination, stream := InputStream(s), Unattached;
    }

    /** +outputForDataConsumer: (the variant with a logger logs only) */
    constructor ForDataConsumer(consumer: DataConsumer)
      ensures destination == Consumer(consumer) && stream == Unattached
    {
      destination, stream := Consumer(consumer), Unattached;
    }

    /** +outputForLogger: */
    constructor ForLogger(logger: DataConsumer)
      ensures destination == Logger(logger) && stream == Unattached
    {
      destination, stream := Logger(logger), Unattached;
    }

    /** +outputToMutableData: */
    constructor ToMutableData(data: MutableData)
      ensures destination == MutableDataBuffer(data) && stream == Unattached
    {
      destination, stream := MutableDataBuffer(data), Unattached;
    }

    /** +outputToStringBackedByMutableData: */
    constructor ToStringBackedByMutableData(data: MutableData)
      ensures destination == StringBackedData(data) && stream == Unattached
    {
      destination, stream := StringBackedData(data), Unattached;
    }

    /** The objects outside the container that its output reaches. */
    function Sinks(): set<object>
    {
      match destination
      case NullDevice => {}
      case FilePath(_, f) => {f}
      case InputStream(s) => {s}
      case Consumer(c) => {c}
      case Logger(l) => {l}
      case MutableDataBuffer(d) => {d}
      case StringBackedData(d) => {d}
    }

    predicate Discards()
    {
      destination.NullDevice?
    }

    /** The bytes the native destination holds. */
    function Received(): seq<Byte>
      reads Sinks()
    {
      match destination
      case NullDevice => []
      case FilePath(_, f) => f.consumed
      case InputStream(s) => s.consumed
      case Consumer(c) => c.consumed
      case Logger(l) => l.consumed
      case MutableDataBuffer(d) => d.bytes
      case StringBackedData(d) => d.bytes
    }

    /** What of the bytes `b` reaches the native destination. */
    function Forwarded(b: seq<Byte>): (r: seq<Byte>)
      ensures r == [] || r == b
    {
      if Discards() then [] else b
    }

    /**
     * The `contents` property. The string view has no state of its own: it is
     * the decoding (NSString's, a parameter here) of the shared buffer.
     */
    function Contents(decode: seq<Byte> -> string): (c: OutputContents)
      reads Sinks()
      ensures destination.StringBackedData? ==> c == StringContents(decode(Received()))
      ensures destination.MutableDataBuffer? ==> c == DataContents(destination.data) && c.data.bytes == Received()
      ensures destination.FilePath? ==> c == PathContents(destination.path)
      ensures destination.NullDevice? ==> c == NullContents
      ensures destination.InputStream? ==> c == StreamContents(destination.stream)
      ensures destination.Consumer? ==> c == ConsumerContents(destination.consumer)
      ensures destination.Logger? ==> c == LoggerContents(destination.logger)
    {
      match destination
      case NullDevice => NullContents
      case FilePath(p, _) => PathContents(p)
      case InputStream(s) => StreamContents(s)
      case Consumer(c) => ConsumerContents(c)
      case Logger(l) => LoggerContents(l)
      case MutableDataBuffer(d) => DataContents(d)
      case StringBackedData(d) => StringContents(decode(d.bytes))
    }

    /** attachToPipeOrFileHandle prefers a pipe; only the null device and a file path cannot give one. */
    predicate ProvidesPipe()
    {
      !destination.NullDevice? && !destination.FilePath?
    }

    /** -attachToFileHandle: succeeds once, from Unattached only. */
    method AttachToFileHandle() returns (r: Outcome<Attachment>)
      modifies this
      ensures stream == Step(old(stream), StreamOp.Attach)
      ensures r.Done? <==> Succeeds(old(stream), StreamOp.Attach)
      ensures r.Done? ==> r.value == FileHandle
      ensures !r.Done? ==> r == Failed(AlreadyAttached)
    {
      if stream == Unattached {
        stream, r := Attached, Done(FileHandle);
      } else {
        r := Failed(AlreadyAttached);
      }
    }

    /** -attachToPipeOrFileHandle: a pipe whenever the destination can take one. */
    method AttachToPipeOrFileHandle() returns (r: Outcome<Attachment>)
      modifies this
      ensures stream == Step(old(stream), StreamOp.Attach)
      ensures r.Done? <==> Succeeds(old(stream), StreamOp.Attach)
      ensures r.Done? ==> (r.value == Pipe <==> ProvidesPipe())
      ensures !r.Done? ==> r == Failed(AlreadyAttached)
    {
      if stream == Unattached {
        stream := Attached;
        r := Done(if ProvidesPipe() then Pipe else FileHandle);
      } else {
        r := Failed(AlreadyAttached);
      }
    }

    /** -detach: always succeeds; repeated or early detaches change nothing more. */
    method Detach() returns (r: Outcome<Unit>)
      modifies this
      ensures r == Done(Unit) && Succeeds(old(stream), StreamOp.Detach)
      ensures stream == Step(old(stream), StreamOp.Detach)
    {
      stream, r := Detached, Done(Unit);
    }

    /** Bytes reach the native destination: appended, in order, nothing else touched. */
    method Deliver(b: seq<Byte>)
      modifies Sinks()
      ensures Received() == old(Received()) + Forwarded(b)
    {
      match destination
      case NullDevice =>
      case FilePath(_, f) => f.ConsumeData(b);
      case InputStream(s) => s.ConsumeData(b);
      case Consumer(c) => c.ConsumeData(b);
      case Logger(l) => l.ConsumeData(b);
      case MutableDataBuffer(d) => d.Append(b);
      case StringBackedData(d) => d.Append(b);
    }

    /** The process writes into the attached handle. */
    method WriteToHandle(b: seq<Byte>)
      requires stream == Attached
      modifies Sinks()
      ensures Received() == old(Received()) + Forwarded(b)
    {
      Deliver(b);
    }

    /** -providedThroughConsumer */
    method ProvidedThroughConsumer() returns (c: OutputConsumer)
      ensures fresh(c) && c.output == this
    {
      c := new OutputConsumer(this);
    }

    /**
     * -providedThroughFile: a file path container is its own file output; any
     * other container bridges from a fresh scratch file (the path is a parameter).
     */
    method ProvidedThroughFile(scratchPath: string) returns (f: FileOutput)
      ensures fresh(f) && f.output == this && f.Valid()
      ensures f.Model() == Bridge(destination.FilePath?, NotStarted, [], 0)
      ensures f.filePath == if destination.FilePath? then destination.path else scratchPath
    {
      f := new FileOutput(this, if destination.FilePath? then destination.path else scratchPath);
    }
  }

  /** The consumer -providedThroughConsumer hands out: it feeds the native destination. */
  class OutputConsumer {
    const output: ProcessOutput

    constructor (output: ProcessOutput)
      ensures this.output == output
    {
      this.output := output;
    }

    method ConsumeData(b: seq<Byte>)
      modifies output.Sinks()
      ensures output.Received() == old(output.Received()) + output.Forwarded(b)
    {
      output.Deliver(b);
    }
  }

  // ---------------------------------------------------------------------
  // FBProcessFileOutput: writing through a file path
  // ---------------------------------------------------------------------

  datatype ReadingState = NotStarted | Reading | Stopped

  datatype BridgeEvent = StartReading | WriteFile(bytes: seq<Byte>) | StopReading

  /**
   * The state of a file output: whether the file is the destination itself
   * (`direct`), the reading state, the bytes written to the path, and how many
   * of them have been passed on to the destination.
   */
  datatype Bridge = Bridge(direct: bool, reading: ReadingState, written: seq<Byte>, forwarded: nat)

  /** The bytes that have reached the destination. */
  function Delivered(b: Bridge): seq<Byte>
    requires b.forwarded <= |b.written|
  {
    b.written[..b.forwarded]
  }

  ghost predicate BridgeValid(b: Bridge)
  {
    && b.forwarded <= |b.written|
    && (b.direct || b.reading == Reading ==> b.forwarded == |b.written|)
    && (!b.direct && b.reading == NotStarted ==> b.forwarded == 0)
  }

  /** Whether startReading/stopReading resolves successfully (writes always do). */
  predicate BridgeSucceeds(b: Bridge, e: BridgeEvent)
  {
    match e
    case StartReading => b.direct || b.reading == NotStarted
    case WriteFile(_) => true
    case StopReading => b.direct || b.reading == Reading
  }

  /**
   * One event. Starting to read passes on everything written so far and then
   * follows the file; stopping ends the following. A direct file output
   * delivers every write at once.
   */
  function BridgeStep(b: Bridge, e: BridgeEvent): Bridge
  {
    match e
    case StartReading =>
      if !b.direct && b.reading == NotStarted then b.(reading := Reading, forwarded := |b.written|) else b
    case WriteFile(bytes) =>
      var w := b.written + bytes;
      if b.direct || b.reading == Reading then b.(written := w, forwarded := |w|) else b.(written := w)
    case StopReading =>
      if !b.direct && b.reading == Reading then b.(reading := Stopped) else b
  }

  function BridgeRun(b: Bridge, events: seq<BridgeEvent>): Bridge
    decreases |events|
  {
    if events == [] then b else BridgeRun(BridgeStep(b, events[0]), events[1..])
  }

  function Writes(chunks: seq<seq<Byte>>): (events: seq<BridgeEvent>)
    ensures |events| == |chunks|
  {
    if chunks == [] then [] else [WriteFile(chunks[0])] + Writes(chunks[1..])
  }

  /** Every event keeps the bridge consistent; delivered bytes never exceed written ones. */
  lemma BridgeStepValid(b: Bridge, e: BridgeEvent)
    requires BridgeValid(b)
    ensures BridgeValid(BridgeStep(b, e))
    ensures Delivered(b) <= Delivered(BridgeStep(b, e))
  {
    var c := BridgeStep(b, e);
    assert c.written[..b.forwarded] == b.written[..b.forwarded];
  }

  lemma {:induction false} BridgeRunAppend(b: Bridge, e1: seq<BridgeEvent>, e2: seq<BridgeEvent>)
    ensures BridgeRun(b, e1 + e2) == BridgeRun(BridgeRun(b, e1), e2)
    decreases |e1|
  {
    if e1 == [] {
      assert e1 + e2 == e2;
    } else {
      assert (e1 + e2)[0] == e1[0];
      assert (e1 + e2)[1..] == e1[1..] + e2;
      BridgeRunAppend(BridgeStep(b, e1[0]), e1[1..], e2);
    }
  }

  /** While the file is followed, every write is passed on as it happens. */
  lemma {:induction false} FollowedWritesArrive(direct: bool, reading: ReadingState, written: seq<Byte>, chunks: seq<seq<Byte>>)
    requires direct || reading == Reading
    ensures BridgeRun(Bridge(direct, reading, written, |written|), Writes(chunks))
      == Bridge(direct, reading, written + Concat(chunks), |written + Concat(chunks)|)
    decreases |chunks|
  {
    if chunks != [] {
      assert Writes(chunks)[1..] == Writes(chunks[1..]);
      FollowedWritesArrive(direct, reading, written + chunks[0], chunks[1..]);
      assert written + chunks[0] + Concat(chunks[1..]) == written + Concat(chunks);
    }
  }

  /** Once reading has stopped, later writes stay in the file. */
  lemma {:induction false} StoppedWritesStay(written: seq<Byte>, forwarded: nat, chunks: seq<seq<Byte>>)
    ensures BridgeRun(Bridge(false, Stopped, written, forwarded), Writes(chunks))
      == Bridge(false, Stopped, written + Concat(chunks), forwarded)
    decreases |chunks|
  {
    if chunks != [] {
      assert Writes(chunks)[1..] == Writes(chunks[1..]);
      StoppedWritesStay(written + chunks[0], forwarded, chunks[1..]);
      assert written + chunks[0] + Concat(chunks[1..]) == written + Concat(chunks);
    }
  }

  /**
   * startReading, then writes, then stopReading, then more writes: exactly
   * the bytes written between start and stop reach the destination, in
   * order (for a direct file output, every write does).
   */
  lemma ProtocolDeliversWrittenBytes(direct: bool, during: seq<seq<Byte>>, after: seq<seq<Byte>>)
    ensures var b := BridgeRun(Bridge(direct, NotStarted, [], 0),
                               [StartReading] + Writes(during) + [StopReading] + Writes(after));
      b.forwarded <= |b.written| &&
      Delivered(b) == if direct then Concat(during) + Concat(after) else Concat(during)
  {
    var init := Bridge(direct, NotStarted, [], 0);
    var started := BridgeStep(init, StartReading);
    assert started == Bridge(direct, if direct then NotStarted else Reading, [], 0);
    BridgeRunAppend(init, [StartReading], Writes(during));
    BridgeRunAppend(init, [StartReading] + Writes(during), [StopReading]);
    BridgeRunAppend(init, [StartReading] + Writes(during) + [StopReading], Writes(after));
    assert BridgeRun(init, [StartReading]) == started;
    FollowedWritesArrive(direct, started.reading, [], during);
    var mid := BridgeRun(init, [StartReading] + Writes(during));
    assert mid == Bridge(direct, started.reading, Concat(during), |Concat(during)|) by {
      assert [] + Concat(during) == Concat(during);
    }
    var stopped := BridgeStep(mid, StopReading);
    assert BridgeRun(mid, [StopReading]) == stopped;
    if direct {
      FollowedWritesArrive(direct, started.reading, Concat(during), after);
    } else {
      StoppedWritesStay(Concat(during), |Concat(during)|, after);
      assert (Concat(during) + Concat(after))[..|Concat(during)|] == Concat(during);
    }
  }

  class FileOutput {
    const output: ProcessOutput
    /** -filePath: the path the external API writes to. */
    const filePath: string
    var reading: ReadingState
    var written: seq<Byte>
    var forwarded: nat

    function Model(): Bridge
      reads this
    {
      Bridge(output.destination.FilePath?, reading, written, forwarded)
    }

    ghost predicate Valid()
      reads this
    {
      BridgeValid(Model())
    }

    constructor (output: ProcessOutput, filePath: string)
      ensures this.output == output && this.filePath == filePath
      ensures Valid() && Model() == Bridge(output.destination.FilePath?, NotStarted, [], 0)
    {
      this.output, this.filePath := output, filePath;
      reading, written, forwarded := NotStarted, [], 0;
    }

    /** -startReading */
    method StartReading() returns (r: Outcome<Unit>)
      requires Valid()
      modifies this, output.Sinks()
      ensures Valid() && Model() == BridgeStep(old(Model()), BridgeEvent.StartReading)
      ensures r.Done? <==> BridgeSucceeds(old(Model()), BridgeEvent.StartReading)
      ensures !r.Done? ==> r == Failed(AlreadyReading)
      ensures output.Received() == old(output.Received()) + output.Forwarded(written[old(forwarded)..forwarded])
    {
      if output.destination.FilePath? {
        r := Done(Unit);
      } else if reading == NotStarted {
        output.Deliver(written);
        reading, forwarded := Reading, |written|;
        r := Done(Unit);
      } else {
        r := Failed(AlreadyReading);
      }
    }

    /** The external API writes bytes to filePath. */
    method WriteFile(b: seq<Byte>)
      requires Valid()
      modifies this, output.Sinks()
      ensures Valid() && Model() == BridgeStep(old(Model()), BridgeEvent.WriteFile(b))
      ensures output.Received() == old(output.Received()) + output.Forwarded(written[old(forwarded)..forwarded])
    {
      written := written + b;
      if output.destination.FilePath? || reading == Reading {
        output.Deliver(b);
        assert written[old(forwarded)..] == b;
        forwarded := |written|;
      }
    }

    /** -stopReading: everything written so far has already been passed on. */
    method StopReading() returns (r: Outcome<Unit>)
      requires Valid()
      modifies this
      ensures Valid() && Model() == BridgeStep(old(Model()), BridgeEvent.StopReading)
      ensures r.Done? <==> BridgeSucceeds(old(Model()), BridgeEvent.StopReading)
      ensures !r.Done? ==> r == Failed(NotReading)
    {
      if output.destination.FilePath? {
        r := Done(Unit);
      } else if reading == Reading {
        reading, r := Stopped, Done(Unit);
      } else {
        r := Failed(NotReading);
      }
    }
  }

  // ---------------------------------------------------------------------
  // FBProcessInput
  // ---------------------------------------------------------------------

  datatype Origin = FromConsumer | FromStream | FromData(data: seq<Byte>)

  /** The `contents` property: the consumer or NSOutputStream to write to, or the fixed data. */
  datatype InputContents = ConsumerInput | StreamInput | DataInput(data: seq<Byte>)

  class ProcessInput {
    const origin: Origin
    var stream: StreamState
    /** The bytes sent to the process's standard input, in order. */
    var pipe: seq<Byte>
    /** Whether the end of the input has been signalled. */
    var closed: bool

    /** +inputFromConsumer */
    constructor FromConsumer()
      ensures origin == Origin.FromConsumer && stream == Unattached && pipe == [] && !closed
    {
      origin, stream, pipe, closed := Origin.FromConsumer, Unattached, [], false;
    }

    /** +inputFromStream */
    constructor FromStream()
      ensures origin == Origin.FromStream && stream == Unattached && pipe == [] && !closed
    {
      origin, stream, pipe, closed := Origin.FromStream, Unattached, [], false;
    }

    /** +inputFromData: */
    constructor FromData(data: seq<Byte>)
      ensures origin == Origin.FromData(data) && stream == Unattached && pipe == [] && !closed
    {
      origin, stream, pipe, closed := Origin.FromData(data), Unattached, [], false;
    }

    function Contents(): (c: InputContents)
      ensures c.DataInput? <==> origin.FromData?
      ensures origin.FromData? ==> c.data == origin.data
      ensures origin.FromConsumer? ==> c == ConsumerInput
      ensures origin.FromStream? ==> c == StreamInput
    {
      match origin
      case FromConsumer => ConsumerInput
      case FromStream => StreamInput
      case FromData(d) => DataInput(d)
    }

    /**
     * -attachToFileHandle: succeeds once, from Unattached only. Fixed data is
     * sent whole at that moment and the input is closed right after.
     */
    method AttachToFileHandle() returns (r: Outcome<Attachment>)
      modifies this
      ensures stream == Step(old(stream), StreamOp.Attach)
      ensures r.Done? <==> Succeeds(old(stream), StreamOp.Attach)
      ensures r.Done? ==> r.value == FileHandle
      ensures !r.Done? ==> r == Failed(AlreadyAttached)
      ensures r.Done? && origin.FromData? ==> pipe == old(pipe) + origin.data && closed
      ensures !(r.Done? && origin.FromData?) ==> pipe == old(pipe) && closed == old(closed)
    {
      r := AttachAs(FileHandle);
    }

    /** -attachToPipeOrFileHandle: every input can be given to the process as a pipe. */
    method AttachToPipeOrFileHandle() returns (r: Outcome<Attachment>)
      modifies this
      ensures stream == Step(old(stream), StreamOp.Attach)
      ensures r.Done? <==> Succeeds(old(stream), StreamOp.Attach)
      ensures r.Done? ==> r.value == Pipe
      ensures !r.Done? ==> r == Failed(AlreadyAttached)
      ensures r.Done? && origin.FromData? ==> pipe == old(pipe) + origin.data && closed
      ensures !(r.Done? && origin.FromData?) ==> pipe == old(pipe) && closed == old(closed)
    {
      r := AttachAs(Pipe);
    }

    method AttachAs(kind: Attachment) returns (r: Outcome<Attachment>)
      modifies this
      ensures stream == Step(old(stream), StreamOp.Attach)
      ensures r == if old(stream) == Unattached then Done(kind) else Failed(AlreadyAttached)
      ensures r.Done? && origin.FromData? ==> pipe == old(pipe) + origin.data && closed
      ensures !(r.Done? && origin.FromData?) ==> pipe == old(pipe) && closed == old(closed)
    {
      if stream == Unattached {
        stream, r := Attached, Done(kind);
        if origin.FromData? {
          pipe, closed := pipe + origin.data, true;
        }
      } else {
        r := Failed(AlreadyAttached);
      }
    }

    /**
     * Writing through `contents` (consumeData: or the NSOutputStream): bytes
     * are queued in order. Fixed data takes no writes, and nothing is
     * accepted once the input is closed.
     */
    method Write(b: seq<Byte>) returns (r: Outcome<Unit>)
      modifies this
      ensures r.Done? <==> !origin.FromData? && !old(closed)
      ensures r.Done? ==> r.value == Unit && pipe == old(pipe) + b
      ensures !r.Done? ==> r == Failed(SourceAlreadyClosed) && pipe == old(pipe)
      ensures closed == old(closed) && stream == old(stream)
    {
      if origin.FromData? || closed {
        r := Failed(SourceAlreadyClosed);
      } else {
        pipe, r := pipe + b, Done(Unit);
      }
    }

    /** consumeEndOfFile / closing the NSOutputStream. */
    method EndOfInput()
      modifies this
      ensures closed && pipe == old(pipe) && stream == old(stream)
    {
      closed := true;
    }

    /** -detach: always succeeds and closes the input. */
    method Detach() returns (r: Outcome<Unit>)
      modifies this
      ensures r == Done(Unit) && Succeeds(old(stream), StreamOp.Detach)
      ensures stream == Step(old(stream), StreamOp.Detach)
      ensures closed && pipe == old(pipe)
    {
      stream, closed, r := Detached, true, Done(Unit);
    }
  }

  // ---------------------------------------------------------------------
  // The pump task and the round trip through a process
  // ---------------------------------------------------------------------

  /**
   * The pump: copies bytes into an attached output, one chunk of at most
   * `chunkSize` bytes at a time, in order.
   */
  method Pump(source: seq<Byte>, chunkSize: nat, out: ProcessOutput)
    requires chunkSize > 0 && out.stream == Attached
    modifies out.Sinks()
    ensures out.Received() == old(out.Received()) + out.Forwarded(source)
  {
    var i := 0;
    while i < |source|
      invariant 0 <= i <= |source|
      invariant out.stream == Attached
      invariant out.Received() == old(out.Received()) + out.Forwarded(source[..i])
    {
      var j := if i + chunkSize < |source| then i + chunkSize else |source|;
      out.WriteToHandle(source[i..j]);
      assert source[..i] + source[i..j] == source[..j];
      i := j;
    }
    assert source[..i] == source;
  }

  /**
   * Fixed input bytes, sent through a process that copies its input to its
   * output, into an output appending to a buffer: the buffer gains exactly
   * those bytes, in order.
   */
  method RoundTripFixedData(data: seq<Byte>, buffer: MutableData, chunkSize: nat)
    requires chunkSize > 0
    modifies buffer
    ensures buffer.bytes == old(buffer.bytes) + data
  {
    var input := new ProcessInput.FromData(data);
    var output := new ProcessOutput.ToMutableData(buffer);
    var attachedIn := input.AttachToPipeOrFileHandle();
    var attachedOut := output.AttachToPipeOrFileHandle();
    assert input.pipe == data;
    Pump(input.pipe, chunkSize, output);
    var detachedIn := input.Detach();
    var detachedOut := output.Detach();
  }
}
