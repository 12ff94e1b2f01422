/** The chunk reader of a file transfer: a stream of chunk and file-done
    messages read as consecutive files, with acknowledgements of what has been
    received. */
module ChunkReader {
  import opened Optional

  type Byte = b: nat | b < 256

  datatype Message = Chunk(data: seq<Byte>) | FileDone | Unexpected

  const RECEIVE_ACK_INTERVAL: nat := 0x10_0000

  /** The bytes carried by a run of messages. */
  function Bytes(messages: seq<Message>): seq<Byte> {
    if messages == [] then []
    else
      var last := messages[|messages| - 1];
      Bytes(messages[..|messages| - 1]) + (if last.Chunk? then last.data else [])
  }

  /** Reading one file off a stream on its own: its bytes are those of the
      chunks before its file-done message. */
  function FirstFile(stream: seq<Message>): Option<(seq<Byte>, seq<Message>)> {
    if stream == [] then None
    else
      match stream[0]
      case Chunk(data) =>
        (match FirstFile(stream[1..])
         case None => None
         case Some((bytes, rest)) => Some((data + bytes, rest)))
      case FileDone => Some(([], stream[1..]))
      case Unexpected => None
  }

  predicate AllChunks(messages: seq<Message>) { forall i :: 0 <= i < |messages| ==> messages[i].Chunk? }

  lemma {:induction false} BytesPrepend(m: Message, messages: seq<Message>)
    ensures Bytes([m] + messages) == (if m.Chunk? then m.data else []) + Bytes(messages)
  {
    if messages == [] {
      assert [m] + messages == [m] && [m][..0] == [];
      assert Bytes([]) == [];
    } else {
      var n := |messages| - 1;
      BytesPrepend(m, messages[..n]);
      assert ([m] + messages)[..n + 1] == [m] + messages[..n];
    }
  }

  /** A run of chunks followed by a file-done message is one file. */
  lemma {:induction false} ChunksThenDone(chunks: seq<Message>, rest: seq<Message>)
    requires AllChunks(chunks)
    ensures FirstFile(chunks + [FileDone] + rest) == Some((Bytes(chunks), rest))
  {
    var stream := chunks + [FileDone] + rest;
    if chunks == [] {
      assert stream[1..] == rest;
    } else {
      ChunksThenDone(chunks[1..], rest);
      assert stream[1..] == chunks[1..] + [FileDone] + rest;
      BytesPrepend(chunks[0], chunks[1..]);
      assert [chunks[0]] + chunks[1..] == chunks;
    }
  }

  /** From here the file can only end: nothing but empty chunks comes before
      its file-done message. */
  predicate OnlyEndLeft(stream: seq<Message>) {
    stream != [] && (stream[0].FileDone? || (stream[0] == Chunk([]) && OnlyEndLeft(stream[1..])))
  }

  /** From here reading fails before any byte or the end of the file comes. */
  predicate Broken(stream: seq<Message>) {
    stream == [] || stream[0].Unexpected? || (stream[0] == Chunk([]) && Broken(stream[1..]))
  }

  predicate Increasing(s: seq<nat>) { forall i, j :: 0 <= i < j < |s| ==> s[i] < s[j] }

  datatype ReadResult = Data(bytes: seq<Byte>) | EndOfFile | Failed

  class Reader {
    const reporting: bool
    var input: seq<Message>
    var buffer: seq<Byte>
    var fileDone: bool
    var fileReceived: nat
    var received: nat
    var acknowledged: nat
    var reports: seq<nat>
    ghost var taken: seq<Message>       // chunks taken off the stream for the current file
    ghost var delivered: seq<Byte>      // bytes handed out for the current file

    ghost predicate Valid()
      reads this
    {
      && AllChunks(taken) && Bytes(taken) == delivered + buffer
      && (fileDone ==> buffer == [])
      && fileReceived == |delivered|
      && acknowledged <= received && (reporting ==> received - acknowledged < RECEIVE_ACK_INTERVAL)
      && Increasing(reports) && (forall i :: 0 <= i < |reports| ==> reports[i] <= acknowledged)
    }

    /** The stream of the current file, from its beginning. */
    ghost function Stream(): seq<Message>
      reads this
    {
      taken + (if fileDone then [FileDone] else []) + input
    }

    constructor (reporting: bool, input: seq<Message>)
      ensures Valid() && this.reporting == reporting && this.input == input
      ensures !fileDone && buffer == [] && received == 0 && reports == []
    {
      this.reporting := reporting;
      this.input := input;
      buffer, fileDone, fileReceived, received, acknowledged, reports := [], false, 0, 0, 0, [];
      taken, delivered := [], [];
    }

    /** Begin a file. Bytes still buffered would count towards it; a file that
        finished leaves none. */
    method BeginFile()
      requires Valid()
      modifies this`fileDone, this`fileReceived, this`taken, this`delivered
      ensures Valid() && !fileDone && fileReceived == 0 && delivered == []
      ensures Stream() == if buffer == [] then input else [Chunk(buffer)] + input
    {
      fileDone, fileReceived := false, 0;
      delivered := [];
      taken := if buffer == [] then [] else [Chunk(buffer)];
      assert Bytes([]) == [];
      assert buffer != [] ==> taken[..0] == [] && Bytes(taken) == Bytes(taken[..0]) + buffer;
    }

    /** Take one message for the current file. */
    method Receive() returns (ok: bool)
      requires Valid() && buffer == [] && !fileDone
      modifies this`input, this`buffer, this`fileDone, this`taken
      ensures Valid() && delivered == old(delivered)
      ensures ok <==> old(input) != [] && !old(input)[0].Unexpected?
      ensures ok ==> input == old(input)[1..] && Stream() == old(Stream())
      ensures ok ==> fileDone == old(input)[0].FileDone? && (old(input)[0].Chunk? ==> buffer == old(input)[0].data)
      ensures ok && fileDone ==> buffer == []
    {
      if input == [] {
        return false;
      }
      var message := input[0];
      ghost var before := Stream();
      match message
      case Chunk(data) =>
        input := input[1..];
        buffer := data;
        ghost var earlier := taken;
        taken := taken + [message];
        assert taken[..|taken| - 1] == earlier;
        assert Stream() == before;
        ok := true;
      case FileDone =>
        input := input[1..];
        fileDone := true;
        assert Stream() == before;
        ok := true;
      case Unexpected => ok := false;
    }

    /** Hand out the next bytes of the file: as many as fit or as the chunk has
        left. The file ends exactly at its file-done message, and reading fails
        exactly when the stream breaks first. */
    method Read(size: nat) returns (result: ReadResult)
      requires Valid()
      modifies this
      ensures Valid()
      ensures result.EndOfFile? <==> old(buffer) == [] && (old(fileDone) || OnlyEndLeft(old(input)))
      ensures result.EndOfFile? ==> fileDone && buffer == []
      ensures result.Failed? <==> old(buffer) == [] && !old(fileDone) && Broken(old(input))
      ensures !result.Failed? ==> Stream() == old(Stream())
      ensures delivered == if result.Data? then old(delivered) + result.bytes else old(delivered)
      ensures result.Data? ==>
                |result.bytes| <= size && (|result.bytes| == size || (buffer == [] && result.bytes != []))
      ensures received == old(received) + if result.Data? then |result.bytes| else 0
      ensures if result.Data? && reporting && received - old(acknowledged) >= RECEIVE_ACK_INTERVAL
              then reports == old(reports) + [received] && acknowledged == received
              else reports == old(reports) && acknowledged == old(acknowledged)
    {
      while buffer == []
        invariant buffer != [] ==>
                    old(buffer) != [] || (!old(fileDone) && !OnlyEndLeft(old(input)) && !Broken(old(input)))
        invariant buffer == [] ==> old(buffer) == []
        invariant buffer == [] && old(fileDone) ==> fileDone
        invariant buffer == [] && !old(fileDone) ==> (OnlyEndLeft(old(input)) <==> fileDone || OnlyEndLeft(input))
        invariant buffer == [] && !old(fileDone) ==> (Broken(old(input)) <==> !fileDone && Broken(input))
        invariant Valid() && delivered == old(delivered) && Stream() == old(Stream())
        invariant received == old(received) && reports == old(reports)
        invariant acknowledged == old(acknowledged) && fileReceived == old(fileReceived)
        decreases |input|, !fileDone
      {
        if fileDone {
          return EndOfFile;
        }
        var ok := Receive();
        if !ok {
          return Failed;
        }
      }
      var bytes := HandOut(size);
      return Data(bytes);
    }

    /** Copy from the buffer, and report when enough has been received. */
    method HandOut(size: nat) returns (bytes: seq<Byte>)
      requires Valid() && buffer != []
      modifies this`buffer, this`delivered, this`fileReceived, this`received, this`acknowledged, this`reports
      ensures Valid() && Stream() == old(Stream())
      ensures old(buffer) == bytes + buffer && delivered == old(delivered) + bytes
      ensures |bytes| <= size && (|bytes| == size || (buffer == [] && bytes != []))
      ensures received == old(received) + |bytes|
      ensures if reporting && received - old(acknowledged) >= RECEIVE_ACK_INTERVAL
              then reports == old(reports) + [received] && acknowledged == received
              else reports == old(reports) && acknowledged == old(acknowledged)
    {
      var n := if size < |buffer| then size else |buffer|;
      bytes := buffer[..n];
      assert delivered + buffer == (delivered + bytes) + buffer[n..];
      buffer := buffer[n..];
      delivered := delivered + bytes;
      fileReceived := fileReceived + n;
      received := received + n;
      if reporting && received - acknowledged >= RECEIVE_ACK_INTERVAL {
        acknowledged := received;
        reports := reports + [received];
      }
    }

    /** Finish the current file: it succeeds exactly when every byte has been
        handed out, only its end is left on the stream, and its size is the
        declared one, if one was declared. */
    method FinishFile(declaredSize: int) returns (ok: bool)
      requires Valid()
      modifies this`input, this`buffer, this`fileDone, this`taken
      ensures Valid() && delivered == old(delivered)
      ensures ok <==> old(buffer) == [] && (old(fileDone) || OnlyEndLeft(old(input)))
                      && (declaredSize >= 0 ==> |delivered| == declaredSize)
      ensures ok ==> fileDone && buffer == [] && FirstFile(old(Stream())) == Some((delivered, input))
    {
      while !fileDone
        invariant Valid() && delivered == old(delivered) && Stream() == old(Stream())
        invariant fileReceived == old(fileReceived)
        invariant old(fileDone) ==> fileDone && buffer == old(buffer)
        invariant !old(fileDone) && old(buffer) != [] ==> !fileDone && buffer != []
        invariant !old(fileDone) && old(buffer) == [] ==>
                    (OnlyEndLeft(old(input)) <==> buffer == [] && (fileDone || OnlyEndLeft(input)))
        decreases |input|, !fileDone
      {
        if buffer != [] {
          return false;
        }
        var received := Receive();
        if !received {
          return false;
        }
      }
      if buffer != [] {
        return false;
      }
      if declaredSize >= 0 && fileReceived != declaredSize {
        return false;
      }
      assert delivered + buffer == delivered;
      ChunksThenDone(taken, input);
      return true;
    }
  }

  /** A file to send: its declared size (negative when unknown) and the sizes
      with which the sender happens to read it. */
  datatype File = File(declaredSize: int, sizes: seq<nat>)

  /** The files at the head of a stream, read one after another on their own. */
  function FilesOf(stream: seq<Message>, count: nat): Option<(seq<seq<Byte>>, seq<Message>)> {
    if count == 0 then Some(([], stream))
    else
      match FilesOf(stream, count - 1)
      case None => None
      case Some((files, rest)) =>
        match FirstFile(rest)
        case None => None
        case Some((bytes, rest')) => Some((files + [bytes], rest'))
  }

  /** Chunks come before what follows them. */
  lemma {:induction false} ChunksThenMore(chunks: seq<Message>, more: seq<Message>)
    requires AllChunks(chunks)
    ensures FirstFile(chunks + more)
         == match FirstFile(more) { case None => None case Some((bytes, rest)) => Some((Bytes(chunks) + bytes, rest)) }
  {
    if chunks == [] {
      assert chunks + more == more;
      if FirstFile(more).Some? { assert [] + FirstFile(more).value.0 == FirstFile(more).value.0; }
    } else {
      ChunksThenMore(chunks[1..], more);
      assert (chunks + more)[1..] == chunks[1..] + more;
      BytesPrepend(chunks[0], chunks[1..]);
      assert [chunks[0]] + chunks[1..] == chunks;
      if FirstFile(more).Some? {
        var bytes := FirstFile(more).value.0;
        assert chunks[0].data + (Bytes(chunks[1..]) + bytes) == chunks[0].data + Bytes(chunks[1..]) + bytes;
      }
    }
  }

  lemma {:induction false} BrokenHasNoFile(stream: seq<Message>)
    requires Broken(stream)
    ensures FirstFile(stream).None?
  {
    if stream != [] && stream[0].Chunk? { BrokenHasNoFile(stream[1..]); }
  }

  /** The current file is whole, and what was handed out of it is its beginning. */
  predicate Beginning(delivered: seq<Byte>, stream: seq<Message>) {
    FirstFile(stream).Some? && delivered <= FirstFile(stream).value.0
  }

  lemma DeliveredIsBeginning(reader: Reader)
    requires reader.Valid() && FirstFile(reader.Stream()).Some?
    ensures Beginning(reader.delivered, reader.Stream())
    ensures reader.buffer == [] && reader.fileDone ==> reader.delivered == FirstFile(reader.Stream()).value.0
    ensures !reader.fileDone ==> !Broken(reader.input)
  {
    var more := (if reader.fileDone then [FileDone] else []) + reader.input;
    assert reader.Stream() == reader.taken + more;
    ChunksThenMore(reader.taken, more);
    if reader.fileDone {
      assert more[1..] == reader.input;
      assert reader.delivered + [] == reader.delivered;
    } else {
      assert more == reader.input;
      if Broken(reader.input) { BrokenHasNoFile(reader.input); }
    }
  }

  /** The sender reads more often than the stream has bytes, at least one at a
      time, and so up to the end of the file. */
  predicate Patient(sizes: seq<nat>, bytes: nat) {
    |sizes| > bytes && forall i :: 0 <= i < |sizes| ==> sizes[i] > 0
  }

  /** Read one file with the given read sizes, stopping at its end. */
  method ReadFile(reader: Reader, sizes: seq<nat>) returns (ok: bool, contents: seq<Byte>)
    requires reader.Valid() && reader.delivered == []
    modifies reader
    ensures reader.Valid() && old(reader.reports) <= reader.reports
    ensures ok ==> contents == reader.delivered && reader.Stream() == old(reader.Stream())
    ensures var file := FirstFile(old(reader.Stream()));
            file.Some? && Patient(sizes, |file.value.0|) ==> ok && reader.fileDone && reader.buffer == []
                                                             && contents == file.value.0
  {
    contents := [];
    ghost var whole := FirstFile(reader.Stream()).Some? && forall i :: 0 <= i < |sizes| ==> sizes[i] > 0;
    for i := 0 to |sizes|
      invariant reader.Valid() && contents == reader.delivered && reader.Stream() == old(reader.Stream())
      invariant old(reader.reports) <= reader.reports
      invariant whole ==> |contents| >= i && Beginning(contents, reader.Stream())
    {
      if whole { DeliveredIsBeginning(reader); }
      var result := reader.Read(sizes[i]);
      if whole && !result.Failed? { DeliveredIsBeginning(reader); }
      match result
      case Data(bytes) => contents := contents + bytes;
      case EndOfFile => return true, contents;
      case Failed => return false, contents;
    }
    return true, contents;
  }

  /** The file is there, of its declared size, and is read to its end. */
  predicate SentWhole(whole: Option<(seq<Byte>, seq<Message>)>, file: File) {
    && whole.Some? && Patient(file.sizes, |whole.value.0|)
    && (file.declaredSize >= 0 ==> |whole.value.0| == file.declaredSize)
  }

  /** Send one file; one that finishes is the next file of the stream. */
  method SendFile(reader: Reader, file: File) returns (ok: bool, bytes: seq<Byte>)
    requires reader.Valid() && reader.buffer == []
    modifies reader
    ensures reader.Valid()
    ensures ok ==> reader.buffer == [] && FirstFile(old(reader.input)) == Some((bytes, reader.input))
    ensures ok && file.declaredSize >= 0 ==> |bytes| == file.declaredSize
    ensures SentWhole(FirstFile(old(reader.input)), file) ==> ok
  {
    reader.BeginFile();
    ok, bytes := ReadFile(reader, file.sizes);
    if ok {
      ok := reader.FinishFile(file.declaredSize);
    }
  }

  /** The next `count` files of the stream are there, each of its declared size
      and read to its end. */
  predicate Sendable(input: seq<Message>, files: seq<File>, count: nat)
    requires count <= |files|
  {
    && FilesOf(input, count).Some?
    && var contents := FilesOf(input, count).value.0;
    && |contents| == count
    && forall i :: 0 <= i < count ==> SentWhole(Some((contents[i], [])), files[i])
  }

  lemma SendableBefore(input: seq<Message>, files: seq<File>, count: nat)
    requires 0 < count <= |files| && Sendable(input, files, count)
    ensures Sendable(input, files, count - 1)
    ensures SentWhole(FirstFile(FilesOf(input, count - 1).value.1), files[count - 1])
  {
    var before := FilesOf(input, count - 1).value.0;
    var contents := FilesOf(input, count).value.0;
    forall i | 0 <= i < count - 1 ensures SentWhole(Some((before[i], [])), files[i]) {
      assert contents[i] == before[i] && SentWhole(Some((contents[i], [])), files[i]);
    }
    assert SentWhole(Some((contents[count - 1], [])), files[count - 1]);
  }

  lemma {:induction false} SendablePrefix(input: seq<Message>, files: seq<File>, count: nat, n: nat)
    requires count <= n <= |files| && Sendable(input, files, n)
    ensures Sendable(input, files, count)
    decreases n
  {
    if count < n {
      SendableBefore(input, files, n);
      SendablePrefix(input, files, count, n - 1);
    }
  }

  /** Send several files over one stream. For every chunking and every choice
      of read sizes, files that all finish are the consecutive files of the
      stream, byte for byte, with their declared sizes; files that are there with
      these sizes and are read to their end do all finish; nothing of one file
      reaches the next; and the reported totals strictly increase. */
  method SendFiles(input: seq<Message>, files: seq<File>)
    returns (ok: bool, contents: seq<seq<Byte>>, reports: seq<nat>)
    ensures ok ==> FilesOf(input, |files|).Some? && FilesOf(input, |files|).value.0 == contents
    ensures ok ==> |contents| == |files| && forall i :: 0 <= i < |files| && files[i].declaredSize >= 0 ==>
              |contents[i]| == files[i].declaredSize
    ensures Sendable(input, files, |files|) ==> ok
    ensures Increasing(reports)
  {
    var reader := new Reader(true, input);
    contents := [];
    for i := 0 to |files|
      invariant fresh(reader) && reader.Valid() && reader.buffer == [] && |contents| == i
      invariant FilesOf(input, i) == Some((contents, reader.input))
      invariant forall j :: 0 <= j < i && files[j].declaredSize >= 0 ==> |contents[j]| == files[j].declaredSize
    {
      if Sendable(input, files, |files|) {
        SendablePrefix(input, files, i + 1, |files|);
        SendableBefore(input, files, i + 1);
      }
      var sent, bytes := SendFile(reader, files[i]);
      if !sent {
        return false, contents, reader.reports;
      }
      contents := contents + [bytes];
    }
    return true, contents, reader.reports;
  }
}
