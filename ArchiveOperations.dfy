// FBArchiveOperations: header sniffing and the dispatch of extraction to the
// zip or tar tool. The tools themselves are an exit-status oracle.

module ArchiveOperations {
  import opened Futures
  import opened ProcessStreams

  /** FBFileHeaderMagic */
  datatype HeaderMagic = Unknown | Tar | Ipa

  /** The C enum value of each FBFileHeaderMagic constant. */
  function MagicValue(m: HeaderMagic): (v: nat)
    ensures v <= 2
    ensures v == 0 <==> m == Unknown
  {
    match m
    case Unknown => 0
    case Tar => 1
    case Ipa => 2
  }

  /** The declared constants: Unknown 0, TAR 1, IPA 2, no two alike. */
  lemma MagicValuesAsDeclared(a: HeaderMagic, b: HeaderMagic)
    ensures MagicValue(Tar) == 1 && MagicValue(Ipa) == 2
    ensures MagicValue(a) == MagicValue(b) ==> a == b
  {
  }

  /**
   * The local file header signature 0x04034b50, as stored little-endian at
   * the start of a zip archive (section 4.3.7 of the PKWARE .ZIP File Format
   * Specification, APPNOTE). An .ipa is a zip archive.
   */
  const ZipLocalFileHeaderSignature: seq<Byte> := [0x50, 0x4B, 0x03, 0x04]

  /** The gzip member header bytes ID1 = 31, ID2 = 139 (section 2.3.1 of RFC 1952), which start a .tar.gz. */
  const GzipMagic: seq<Byte> := [0x1F, 0x8B]

  /** How many leading bytes the classifier reads. */
  const HeaderLength: nat := 4

  /**
   * +headerMagicForData: IPA for the zip signature, TAR for the gzip bytes,
   * Unknown for anything else, including data too short to hold a header.
   */
  function HeaderMagicForData(data: seq<Byte>): (m: HeaderMagic)
    ensures m == Ipa <==> |data| >= HeaderLength && data[..4] == ZipLocalFileHeaderSignature
    ensures m == Tar <==> |data| >= HeaderLength && data[..2] == GzipMagic
    ensures m == Unknown <==>
      |data| < HeaderLength || (data[..4] != ZipLocalFileHeaderSignature && data[..2] != GzipMagic)
  {
    if |data| < HeaderLength then Unknown
    else if data[0] == 0x50 && data[1] == 0x4B && data[2] == 0x03 && data[3] == 0x04 then Ipa
    else if data[0] == 0x1F && data[1] == 0x8B then Tar
    else Unknown
  }

  /** Only the header counts: bytes after it never change the classification. */
  lemma HeaderMagicIgnoresTail(data: seq<Byte>, tail: seq<Byte>)
    requires |data| >= HeaderLength
    ensures HeaderMagicForData(data + tail) == HeaderMagicForData(data)
  {
    assert (data + tail)[..4] == data[..4];
    assert (data + tail)[..2] == data[..2];
  }

  /** The classification of data is that of its leading bytes. */
  lemma HeaderMagicOfLeadingBytes(data: seq<Byte>)
    ensures |data| >= HeaderLength ==> HeaderMagicForData(data) == HeaderMagicForData(data[..HeaderLength])
    ensures |data| < HeaderLength ==> HeaderMagicForData(data) == Unknown
  {
    if |data| >= HeaderLength {
      HeaderMagicIgnoresTail(data[..HeaderLength], data[HeaderLength..]);
      assert data[..HeaderLength] + data[HeaderLength..] == data;
    }
  }

  lemma ClassifierExamples()
    ensures HeaderMagicForData([0x50, 0x4B, 0x03, 0x04]) == Ipa
    ensures HeaderMagicForData([0x00, 0x00, 0x00, 0x00]) == Unknown
    ensures HeaderMagicForData([0x1F, 0x8B, 0x08, 0x00]) == Tar
    ensures HeaderMagicForData([]) == Unknown
    ensures HeaderMagicForData([0x50, 0x4B, 0x03]) == Unknown
  {
  }

  /** The bytes +headerMagicForFile reads: at most the header; none for a file that cannot be opened. */
  function LeadingBytes(files: map<string, seq<Byte>>, path: string): seq<Byte>
  {
    if path !in files then []
    else if |files[path]| <= HeaderLength then files[path]
    else files[path][..HeaderLength]
  }

  /** +headerMagicForFile: the classification of the file's contents, Unknown if there is no file. */
  function HeaderMagicForFile(files: map<string, seq<Byte>>, path: string): (m: HeaderMagic)
    ensures path in files ==> m == HeaderMagicForData(files[path])
    ensures path !in files ==> m == Unknown
  {
    HeaderMagicOfLeadingBytes(if path in files then files[path] else []);
    HeaderMagicForData(LeadingBytes(files, path))
  }

  // ---------------------------------------------------------------------
  // Extraction
  // ---------------------------------------------------------------------

  datatype Tool = ZipExtractor | TarExtractor

  /** Where the tool reads the archive from: a path, or its standard input. */
  datatype ArchiveSource = ArchiveAt(path: string) | StandardInput(bytes: seq<Byte>)

  /** One run of an external tool: which tool, which archive, which destination. */
  datatype Command = Command(tool: Tool, source: ArchiveSource, extractPath: string)

  /** The outcome of running a tool, from its exit status. */
  function ToolOutcome(status: int): Outcome<Unit>
  {
    if status == 0 then Done(Unit) else Failed(ToolFailure(status))
  }

  /** Runs the command until it exits and replaces its result with the extraction path. */
  method RunExtraction(cmd: Command, exitStatus: Command -> int) returns (r: Outcome<string>)
    ensures r.Done? <==> exitStatus(cmd) == 0
    ensures r.Done? ==> r.value == cmd.extractPath
    ensures !r.Done? ==> r == Failed(ToolFailure(exitStatus(cmd)))
  {
    r := MapReplace(ToolOutcome(exitStatus(cmd)), cmd.extractPath);
  }

  /** +extractZipArchiveAtPath: */
  method ExtractZipArchiveAtPath(path: string, extractPath: string, exitStatus: Command -> int)
    returns (spawned: seq<Command>, r: Outcome<string>)
    ensures spawned == [Command(ZipExtractor, ArchiveAt(path), extractPath)]
    ensures r.Done? <==> exitStatus(spawned[0]) == 0
    ensures r.Done? ==> r.value == extractPath
    ensures !r.Done? ==> r == Failed(ToolFailure(exitStatus(spawned[0])))
  {
    var cmd := Command(ZipExtractor, ArchiveAt(path), extractPath);
    spawned := [cmd];
    r := RunExtraction(cmd, exitStatus);
  }

  /** +extractTarArchiveAtPath: */
  method ExtractTarArchiveAtPath(path: string, extractPath: string, exitStatus: Command -> int)
    returns (spawned: seq<Command>, r: Outcome<string>)
    ensures spawned == [Command(TarExtractor, ArchiveAt(path), extractPath)]
    ensures r.Done? <==> exitStatus(spawned[0]) == 0
    ensures r.Done? ==> r.value == extractPath
    ensures !r.Done? ==> r == Failed(ToolFailure(exitStatus(spawned[0])))
  {
    var cmd := Command(TarExtractor, ArchiveAt(path), extractPath);
    spawned := [cmd];
    r := RunExtraction(cmd, exitStatus);
  }

  /**
   * +extractArchiveAtPath: sniffs the file and runs the matching tool; when
   * the header fits neither, it fails without running anything.
   */
  method ExtractArchiveAtPath(files: map<string, seq<Byte>>, path: string, extractPath: string, exitStatus: Command -> int)
    returns (spawned: seq<Command>, r: Outcome<string>)
    ensures HeaderMagicForFile(files, path) == Ipa ==> spawned == [Command(ZipExtractor, ArchiveAt(path), extractPath)]
    ensures HeaderMagicForFile(files, path) == Tar ==> spawned == [Command(TarExtractor, ArchiveAt(path), extractPath)]
    ensures HeaderMagicForFile(files, path) == Unknown ==> spawned == [] && r == Failed(UnsupportedFormat(path))
    ensures r.Done? <==> |spawned| == 1 && exitStatus(spawned[0]) == 0
    ensures r.Done? ==> r.value == extractPath
    ensures |spawned| == 1 && exitStatus(spawned[0]) != 0 ==> r == Failed(ToolFailure(exitStatus(spawned[0])))
  {
    match HeaderMagicForFile(files, path)
    case Ipa =>
      spawned, r := ExtractZipArchiveAtPath(path, extractPath, exitStatus);
    case Tar =>
      spawned, r := ExtractTarArchiveAtPath(path, extractPath, exitStatus);
    case Unknown =>
      spawned, r := [], Failed(UnsupportedFormat(path));
  }

  /**
   * The bytes tar reads from a stream container: fixed data is sent whole;
   * otherwise what was queued before, then what the producer writes, unless
   * the input was already closed.
   */
  function StreamedBytes(origin: Origin, queued: seq<Byte>, closed: bool, produced: seq<seq<Byte>>): seq<Byte>
  {
    if origin.FromData? then queued + origin.data
    else if closed then queued
    else queued + Concat(produced)
  }

  /** What tar reads does not depend on where the producer's writes begin and end. */
  lemma StreamedBytesIgnoreWriteBoundaries(origin: Origin, queued: seq<Byte>, closed: bool, produced: seq<seq<Byte>>)
    ensures StreamedBytes(origin, queued, closed, produced) == StreamedBytes(origin, queued, closed, [Concat(produced)])
  {
    assert Concat([Concat(produced)]) == Concat(produced) + Concat([]);
  }

  /** In particular, the pump's fixed-size chunks deliver the same bytes as one whole write. */
  lemma StreamedBytesIgnoreChunking(origin: Origin, queued: seq<Byte>, closed: bool, bytes: seq<Byte>, n: nat)
    requires n > 0
    ensures StreamedBytes(origin, queued, closed, Chunks(bytes, n)) == StreamedBytes(origin, queued, closed, [bytes])
  {
    ChunksConcat(bytes, n);
    assert Concat([bytes]) == bytes + Concat([]);
  }

  /**
   * +extractTarArchiveFromStream: always tar, reading the stream container as
   * its standard input. The stream is attached for the tool (an attached or
   * detached stream fails before anything runs); `produced` is what the
   * producer writes to it before closing it; the tool's exit status decides
   * the result.
   */
  method ExtractTarArchiveFromStream(stream: ProcessInput, extractPath: string, produced: seq<seq<Byte>>, exitStatus: Command -> int)
    returns (spawned: seq<Command>, r: Outcome<string>)
    modifies stream
    ensures old(stream.stream) != Unattached ==> spawned == [] && r == Failed(AlreadyAttached)
    ensures old(stream.stream) != Unattached ==>
      stream.stream == old(stream.stream) && stream.pipe == old(stream.pipe) && stream.closed == old(stream.closed)
    ensures old(stream.stream) == Unattached ==>
      spawned == [Command(TarExtractor, StandardInput(StreamedBytes(stream.origin, old(stream.pipe), old(stream.closed), produced)), extractPath)]
    ensures old(stream.stream) == Unattached ==>
      stream.stream == Detached && stream.pipe == spawned[0].source.bytes && stream.closed
    ensures r.Done? <==> |spawned| == 1 && exitStatus(spawned[0]) == 0
    ensures r.Done? ==> r.value == extractPath
    ensures |spawned| == 1 && exitStatus(spawned[0]) != 0 ==> r == Failed(ToolFailure(exitStatus(spawned[0])))
  {
    var attached := stream.AttachToPipeOrFileHandle();
    if !attached.Done? {
      spawned, r := [], Failed(AlreadyAttached);
      return;
    }
    ghost var base := stream.pipe;
    var i := 0;
    while i < |produced|
      invariant 0 <= i <= |produced|
      invariant stream.stream == Attached
      invariant stream.origin.FromData? ==> stream.pipe == base
      invariant !stream.origin.FromData? ==> stream.closed == old(stream.closed)
      invariant !stream.origin.FromData? && !old(stream.closed) ==> stream.pipe == base + Concat(produced[..i])
      invariant !stream.origin.FromData? && old(stream.closed) ==> stream.pipe == base
    {
      var written := stream.Write(produced[i]);
      ConcatAppend(produced[..i], [produced[i]]);
      assert produced[..i + 1] == produced[..i] + [produced[i]];
      assert Concat([produced[i]]) == produced[i] + Concat([]);
      i := i + 1;
    }
    assert produced[..i] == produced;
    stream.EndOfInput();
    var cmd := Command(TarExtractor, StandardInput(stream.pipe), extractPath);
    spawned := [cmd];
    r := RunExtraction(cmd, exitStatus);
    var detached := stream.Detach();
  }
}
