/** The buffered writer between commit and disk, and what a restart makes of the files. */
module Storage {
  import opened Types
  import opened Decimal
  import opened LogFiles

  /** How one entry is turned into bytes and back. */
  datatype Codec = Codec(encode: Entry -> Bytes, decode: Bytes -> Entry)

  /** The codec gives back these entries, and their lengths fit an int. */
  ghost predicate Faithful(codec: Codec, entries: seq<Entry>) {
    forall i :: 0 <= i < |entries| ==>
                  && codec.decode(codec.encode(entries[i])) == entries[i]
                  && |codec.encode(entries[i])| <= INT_MAX
  }

  function EncodeEntries(codec: Codec, entries: seq<Entry>): seq<Bytes> {
    seq(|entries|, i requires 0 <= i < |entries| => codec.encode(entries[i]))
  }

  function DecodeEntries(codec: Codec, payloads: seq<Bytes>): seq<Entry> {
    seq(|payloads|, i requires 0 <= i < |payloads| => codec.decode(payloads[i]))
  }

  /** Entries and commit index waiting for the writer, and the two files. */
  datatype Disk = Disk(buffer: seq<Entry>, metadata: int, file: Bytes, metadataFile: Bytes)

  /** Storing fills the buffer; a flush finds that the log file and the metadata file open, or not. */
  datatype DiskEvent = Store(entries: seq<Entry>, metadata: int) | Flush(logOpens: bool, metadataOpens: bool)

  /** A flush clears the buffer whether or not the log file could be opened. */
  function Write(codec: Codec, d: Disk, ev: DiskEvent): Disk {
    match ev
    case Store(entries, metadata) => d.(buffer := d.buffer + entries, metadata := metadata)
    case Flush(logOpens, metadataOpens) =>
      Disk([], d.metadata,
           if logOpens then d.file + Frames(EncodeEntries(codec, d.buffer)) else d.file,
           if metadataOpens then IntText(d.metadata) + [SPACE] else d.metadataFile)
  }

  /** The disk after some events. */
  function DiskAfter(codec: Codec, start: Disk, events: seq<DiskEvent>): Disk
    decreases |events|
  {
    if events == [] then start else
      Write(codec, DiskAfter(codec, start, events[..|events| - 1]), events[|events| - 1])
  }

  /** Everything handed to storage, in order. */
  function Stored(events: seq<DiskEvent>): seq<Entry>
    decreases |events|
  {
    if events == [] then [] else
      Stored(events[..|events| - 1]) + if events[|events| - 1].Store? then events[|events| - 1].entries else []
  }

  /** The metadata handed over last. */
  function LastMetadata(events: seq<DiskEvent>, garbage: int): int
    decreases |events|
  {
    if events == [] then garbage
    else if events[|events| - 1].Store? then events[|events| - 1].metadata
    else LastMetadata(events[..|events| - 1], garbage)
  }

  lemma EncodeConcat(codec: Codec, a: seq<Entry>, b: seq<Entry>)
    ensures EncodeEntries(codec, a + b) == EncodeEntries(codec, a) + EncodeEntries(codec, b)
  {
  }

  /** What was handed over since the last flush. */
  function Waiting(events: seq<DiskEvent>): seq<Entry>
    decreases |events|
  {
    if events == [] || events[|events| - 1].Flush? then []
    else Waiting(events[..|events| - 1]) + events[|events| - 1].entries
  }

  /** What reached the log file. */
  function Written(events: seq<DiskEvent>): seq<Entry>
    decreases |events|
  {
    if events == [] then [] else
      var before, ev := events[..|events| - 1], events[|events| - 1];
      Written(before) + if ev.Flush? && ev.logOpens then Waiting(before) else []
  }

  /** The log file holds what reached it, the buffer what waits, and nothing is doubled or out of order,
      for every interleaving of stores, flushes and flushes that fail. */
  lemma {:induction false} FileAndBuffer(codec: Codec, start: Disk, events: seq<DiskEvent>)
    requires start.buffer == []
    ensures var d := DiskAfter(codec, start, events);
            && d.file == start.file + Frames(EncodeEntries(codec, Written(events)))
            && d.buffer == Waiting(events)
            && d.metadata == LastMetadata(events, start.metadata)
  {
    hide Frames, EncodeEntries, IntText;
    NoFrames(codec);
    if events != [] {
      var before, ev := events[..|events| - 1], events[|events| - 1];
      FileAndBuffer(codec, start, before);
      MoreFrames(codec, Written(before), if ev.Flush? && ev.logOpens then Waiting(before) else []);
    }
  }

  lemma NoFrames(codec: Codec)
    ensures Frames(EncodeEntries(codec, [])) == []
  {
    assert EncodeEntries(codec, []) == [];
  }

  lemma MoreFrames(codec: Codec, a: seq<Entry>, b: seq<Entry>)
    ensures Frames(EncodeEntries(codec, a + b)) == Frames(EncodeEntries(codec, a)) + Frames(EncodeEntries(codec, b))
  {
    EncodeConcat(codec, a, b);
    FramesConcat(EncodeEntries(codec, a), EncodeEntries(codec, b));
  }

  /** No flush that failed to open the log file had anything to write. */
  ghost predicate Lossless(events: seq<DiskEvent>) {
    forall k :: 0 <= k < |events| && events[k].Flush? && !events[k].logOpens ==> Waiting(events[..k]) == []
  }

  lemma LosslessPrefix(events: seq<DiskEvent>)
    requires events != []
    ensures var k := |events| - 1;
            Lossless(events) <==>
            Lossless(events[..k]) && (events[k].Flush? && !events[k].logOpens ==> Waiting(events[..k]) == [])
  {
    var k := |events| - 1;
    assert forall j :: 0 <= j < k ==> events[..k][j] == events[j] && events[..k][..j] == events[..j];
  }

  /** Nothing handed over is lost if and only if no failed flush met a non-empty buffer. */
  lemma {:induction false} NothingLostIff(events: seq<DiskEvent>)
    ensures Written(events) + Waiting(events) == Stored(events) <==> Lossless(events)
    ensures |Written(events)| + |Waiting(events)| <= |Stored(events)|
    ensures !Lossless(events) ==> |Written(events)| + |Waiting(events)| < |Stored(events)|
    decreases |events|
  {
    if events != [] {
      var k := |events| - 1;
      var before, ev := events[..k], events[k];
      NothingLostIff(before);
      LosslessPrefix(events);
      hide Lossless;
      if ev.Store? {
        assert Written(before) + (Waiting(before) + ev.entries) == Written(before) + Waiting(before) + ev.entries;
      }
    }
  }

  /** What a restarted node reads from the log file. */
  function LoadEntries(codec: Codec, d: Disk): seq<Entry> {
    match LoadFrom(d.file, [], [])
    case Loaded(payloads, _) => DecodeEntries(codec, payloads)
    case LengthError => []
  }

  /** The commit index a restarted node reads: 0 when the file holds no number, the nearest int when it holds one
      that is out of range. */
  function LoadCommit(d: Disk): int {
    var value := ReadInt(d.metadataFile).value;
    if value > INT_MAX then INT_MAX else if value < -INT_MAX - 1 then -INT_MAX - 1 else value
  }

  /** A first start: empty files hold no entry, and the commit index is 0. */
  lemma NothingToLoad(codec: Codec, d: Disk)
    ensures d.file == [] ==> LoadFrom(d.file, [], []) == Loaded([], 0) && LoadEntries(codec, d) == []
    ensures d.metadataFile == [] ==> LoadCommit(d) == 0
  {
  }

  /** A metadata file without a number gives 0; one that holds a printed number gives it, or the nearest int. */
  lemma CommitRead(d: Disk, n: int, rest: Bytes)
    ensures NoNumber(d.metadataFile) ==> LoadCommit(d) == 0
    ensures d.metadataFile == IntText(n) + [SPACE] + rest ==>
              LoadCommit(d) == if n > INT_MAX then INT_MAX else if n < -INT_MAX - 1 then -INT_MAX - 1 else n
  {
    ReadsNothing(d.metadataFile);
    ReadInteger(n, rest);
    hide ReadInt, NoNumber, IntText;
  }

  /** After a flush, loading gives what the file held before and what reached it since; that is everything handed
      to storage exactly when nothing was lost. A flush that opens the metadata file leaves the last commit index there. */
  lemma LoadAfterFlush(codec: Codec, earlier: seq<Entry>, start: Disk, events: seq<DiskEvent>)
    requires start.buffer == [] && start.file == Frames(EncodeEntries(codec, earlier))
    requires events != [] && events[|events| - 1].Flush? && Faithful(codec, earlier + Stored(events))
    ensures var d := DiskAfter(codec, start, events);
            && LoadFrom(d.file, [], []).Loaded? && LoadFrom(d.file, [], []).code == 0
            && LoadEntries(codec, d) == earlier + Written(events)
            && (LoadEntries(codec, d) == earlier + Stored(events) <==> Lossless(events))
            && (events[|events| - 1].metadataOpens && -INT_MAX - 1 <= LastMetadata(events, start.metadata) <= INT_MAX ==>
                  LoadCommit(d) == LastMetadata(events, start.metadata))
  {
    hide Lossless, Faithful, DiskAfter, LastMetadata, LoadCommit, Frames;
    LoadWritten(codec, earlier, start, events);
    NothingLostIff(events);
    assert Waiting(events) == [];
    assert Written(events) + [] == Written(events);
    if earlier + Written(events) == earlier + Stored(events) {
      assert (earlier + Written(events))[|earlier|..] == Written(events);
      assert (earlier + Stored(events))[|earlier|..] == Stored(events);
    }
    if events[|events| - 1].metadataOpens && -INT_MAX - 1 <= LastMetadata(events, start.metadata) <= INT_MAX {
      CommitWritten(codec, start, events);
    }
  }

  lemma {:induction false} WrittenWasStored(events: seq<DiskEvent>, e: Entry)
    ensures e in Written(events) || e in Waiting(events) ==> e in Stored(events)
    decreases |events|
  {
    if events != [] {
      WrittenWasStored(events[..|events| - 1], e);
    }
  }

  lemma LoadWritten(codec: Codec, earlier: seq<Entry>, start: Disk, events: seq<DiskEvent>)
    requires start.buffer == [] && start.file == Frames(EncodeEntries(codec, earlier))
    requires Faithful(codec, earlier + Stored(events))
    ensures var d := DiskAfter(codec, start, events);
            && LoadFrom(d.file, [], []) == Loaded(EncodeEntries(codec, earlier + Written(events)), 0)
            && LoadEntries(codec, d) == earlier + Written(events)
  {
    var d, all := DiskAfter(codec, start, events), earlier + Written(events);
    forall i | 0 <= i < |all| ensures codec.decode(codec.encode(all[i])) == all[i] && |codec.encode(all[i])| <= INT_MAX {
      WrittenWasStored(events, all[i]);
      assert all[i] in earlier || all[i] in Written(events);
      assert all[i] in earlier + Stored(events);
    }
    FileAndBuffer(codec, start, events);
    MoreFrames(codec, earlier, Written(events));
    hide DiskAfter, Frames, Written, Faithful, LoadFrom;
    RoundTripIff(EncodeEntries(codec, all));
    assert DecodeEntries(codec, EncodeEntries(codec, all)) == all;
  }

  lemma CommitWritten(codec: Codec, start: Disk, events: seq<DiskEvent>)
    requires start.buffer == [] && events != [] && events[|events| - 1].Flush? && events[|events| - 1].metadataOpens
    requires -INT_MAX - 1 <= LastMetadata(events, start.metadata) <= INT_MAX
    ensures LoadCommit(DiskAfter(codec, start, events)) == LastMetadata(events, start.metadata)
  {
    var m, d := LastMetadata(events, start.metadata), DiskAfter(codec, start, events);
    FileAndBuffer(codec, start, events[..|events| - 1]);
    assert d.metadataFile == IntText(m) + [SPACE] + [];
    CommitRead(d, m, []);
  }

  /** The writer of one node. */
  class ClusterNodeStorage {
    const codec: Codec
    const log: LogFile
    var buffer: seq<Entry>
    var metadata: int
    var metadataFile: Bytes
    ghost var handed: seq<DiskEvent>
    ghost const start: Disk

    function Contents(): Disk
      reads this, log
    {
      Disk(buffer, metadata, log.bytes, metadataFile)
    }

    ghost predicate Valid()
      reads this, log
    {
      start.buffer == [] && Contents() == DiskAfter(codec, start, handed)
    }

    /** Starts on whatever the two files hold; the metadata buffer is not initialised. */
    constructor (codec: Codec, log: LogFile, metadataFile: Bytes, metadata: int)
      ensures Valid() && handed == [] && this.codec == codec && this.log == log
      ensures start == Disk([], metadata, log.bytes, metadataFile)
    {
      this.codec, this.log, this.metadata := codec, log, metadata;
      buffer, this.metadataFile := [], metadataFile;
      handed, start := [], Disk([], metadata, log.bytes, metadataFile);
    }

    method StoreLogEntriesAndMetadata(entries: seq<Entry>, start: int, stop: int, metadata: int)
      requires Valid() && 0 <= start < stop <= |entries|
      modifies this
      ensures Valid() && handed == old(handed) + [Store(entries[start..stop], metadata)]
    {
      handed := handed + [Store(entries[start..stop], metadata)];
      assert handed[..|handed| - 1] == old(handed);
      buffer := buffer + entries[start..stop];
      this.metadata := metadata;
    }

    method EncodeBuffer() returns (payloads: seq<Bytes>)
      ensures payloads == EncodeEntries(codec, buffer)
    {
      payloads := [];
      for k := 0 to |buffer|
        invariant payloads == EncodeEntries(codec, buffer[..k])
      {
        payloads := payloads + [codec.encode(buffer[k])];
      }
      assert buffer[..|buffer|] == buffer;
    }

    /** One turn of the writer thread, under the lock; nobody looks whether the files could be opened. */
    method ConsumeAndStoreMessages(logOpens: bool, metadataOpens: bool)
      requires Valid()
      modifies this, log
      ensures Valid() && handed == old(handed) + [Flush(logOpens, metadataOpens)]
    {
      hide Frames, EncodeEntries;
      handed := handed + [Flush(logOpens, metadataOpens)];
      assert handed[..|handed| - 1] == old(handed);
      log.writable := logOpens;
      var payloads := EncodeBuffer();
      var _ := log.AppendLogEntries(payloads);
      if metadataOpens {
        metadataFile := IntText(metadata) + [SPACE];
      }
      buffer := [];
    }

    method Decode(payloads: seq<Bytes>) returns (entries: seq<Entry>)
      ensures entries == DecodeEntries(codec, payloads)
    {
      entries := [];
      for k := 0 to |payloads|
        invariant entries == DecodeEntries(codec, payloads[..k])
      {
        entries := entries + [codec.decode(payloads[k])];
      }
      assert payloads[..|payloads|] == payloads;
    }

    /** The entries of the log file; none when a length in it is negative and reading it fails. */
    method LoadLogEntryFromFile() returns (entries: seq<Entry>)
      ensures entries == LoadEntries(codec, Contents())
    {
      hide LoadFrom, DecodeEntries;
      var loaded := log.LoadLogEntries();
      if loaded.LengthError? {
        return [];
      }
      entries := Decode(loaded.payloads);
    }
  }
}
