/** The segment writer (`FileTransport`): records are serialised to lines,
    buffered or written straight through, hashed, and the segment is rotated
    on a date change or when it would grow past its size limit, closing it with
    an EOF sentinel that names the next segment and carries the checksum of
    what was hashed in it.

    The writer is specified by step functions on `WriterState`, one per task
    body of the source; the class `FileTransport` holds the same fields and its
    methods update them in place, each proved to perform its step function.
    Queued tasks run one after another, so a method call stands for one task.
    The disk is the map `files` from segment names to the chunks written to
    them; the digest, `JSON.stringify` and the clock are inputs. */
module Transport {
  import opened Wrappers
  import opened Strings
  import opened Types
  import Files

  /** The resolved options the writer reads, and the process id. */
  datatype WriterOptions = WriterOptions(
    app: string,
    version: string,
    maxFileSizeBytes: int,
    batchSizeBytes: int,
    pid: int)

  /** The foreign code the writer calls: `JSON.stringify` of a record (`None`
      when it throws, for a context holding a cycle or a BigInt), of an EOF
      record (which cannot throw), and the hex SHA-256 digest of the hashed text. */
  datatype Env = Env(
    serialize: LogRecord -> Option<string>,
    encodeEof: EofRecord -> string,
    digest: string -> string)

  /** The two `Date.now()` readings a rotation takes: the next segment's
      timestamp, with its date key in the writer's time zone, and the EOF
      record's `ts`. */
  datatype RotationClock = RotationClock(now: int, dateKey: string, eofTs: int)

  /** The writer's fields. `hashed` is what the rolling hash has been fed since
      the current segment was opened; `streamOpen` is `stream !== null`. */
  datatype WriterState = WriterState(
    buffer: seq<string>,
    bufferBytes: int,
    hashed: seq<string>,
    currentSize: int,
    currentDateKey: string,
    sequence: nat,
    currentFileName: string,
    streamOpen: bool,
    files: map<string, seq<string>>)

  /** The levels written without buffering. */
  predicate IsDirect(l: Level) {
    l == ERROR || l == ASSERT || l == SECURITY
  }

  /** Appending a chunk to a segment; a missing file is created (flag "a"). */
  function Append(files: map<string, seq<string>>, name: string, chunk: string): (r: map<string, seq<string>>)
    ensures name in r && r[name] == (if name in files then files[name] else []) + [chunk]
    ensures forall n :: n in files && n != name ==> n in r && r[n] == files[n]
    ensures r.Keys == files.Keys + {name}
  {
    files[name := (if name in files then files[name] else []) + [chunk]]
  }

  /** The accounting the writer keeps: `bufferBytes` is the byte length of the
      buffered lines, `currentSize` the byte length of what was hashed, and an
      open stream's segment exists. */
  predicate Valid(s: WriterState) {
    s.bufferBytes == SumBytes(s.buffer) &&
    s.currentSize == Utf8Length(Concat(s.hashed)) &&
    (s.streamOpen ==> s.currentFileName in s.files)
  }

  /** `chunks` are the last chunks of `content`. */
  predicate EndsWithChunks(content: seq<string>, chunks: seq<string>) {
    |chunks| <= |content| && content[|content| - |chunks|..] == chunks
  }

  /** The checksum's scope: what the hash was fed since the segment was opened
      is exactly the tail of the open segment. */
  predicate HashTracksFile(s: WriterState) {
    s.streamOpen ==> s.currentFileName in s.files && EndsWithChunks(s.files[s.currentFileName], s.hashed)
  }

  // ---------------------------------------------------------------------------
  // Steps
  // ---------------------------------------------------------------------------

  /** `writeToStream`: appends the chunk to the open segment, bypassing the
      hash and the size count; nothing when the stream is closed. */
  function WriteToStreamStep(s: WriterState, chunk: string): WriterState {
    if !s.streamOpen then s else s.(files := Append(s.files, s.currentFileName, chunk))
  }

  /** `writeLine(line, bytes, true)`: feeds the hash, counts the bytes and
      writes the line; nothing when the stream is closed. Both call sites pass
      `updateHash = true`. */
  function WriteLineStep(s: WriterState, line: string, bytes: int): WriterState {
    if !s.streamOpen then s
    else WriteToStreamStep(s.(hashed := s.hashed + [line], currentSize := s.currentSize + bytes), line)
  }

  /** `flushBuffer`: an empty buffer does nothing; otherwise the buffer and its
      byte count are cleared and the joined lines go through `writeLine`. */
  function FlushStep(s: WriterState): WriterState {
    if s.buffer == [] then s
    else WriteLineStep(s.(buffer := [], bufferBytes := 0), Concat(s.buffer), s.bufferBytes)
  }

  /** `openStream(name)`: a fresh hash and size, the stream open on `name`. */
  function OpenStep(s: WriterState, name: string): WriterState {
    s.(currentFileName := name, currentSize := 0, hashed := [], streamOpen := true,
       files := if name in s.files then s.files else s.files[name := []])
  }

  /** `endStream`. */
  function EndStep(s: WriterState): WriterState {
    s.(streamOpen := false)
  }

  /** `shouldRotate`: only with an open stream, on a new date key or when the
      segment, the buffer and the incoming line together exceed the limit. */
  predicate RotationDue(opts: WriterOptions, s: WriterState, dateKey: string, bytes: int) {
    s.streamOpen &&
    (dateKey != s.currentDateKey || s.currentSize + s.bufferBytes + bytes > opts.maxFileSizeBytes)
  }

  /** The rotation reason: a date change wins over a size overflow. */
  function RotationReason(s: WriterState, dateKey: string): (r: Reason)
    ensures r != Manual
  {
    if dateKey != s.currentDateKey then RotateDate else RotateSize
  }

  /** The next segment's sequence number. */
  function NextSequence(sequence: nat, reason: Reason): nat {
    if reason == RotateDate then 0 else sequence + 1
  }

  /** The next segment's name. */
  function NextName(opts: WriterOptions, sequence: nat, reason: Reason, clock: RotationClock): string {
    Files.GenerateLogFileName(opts.app, opts.version, clock.dateKey, clock.now, opts.pid, NextSequence(sequence, reason))
  }

  /** The EOF record a rotation of `s` writes: the digest covers what was hashed
      once the buffer is flushed. */
  function EofFor(opts: WriterOptions, env: Env, s: WriterState, reason: Reason, clock: RotationClock): EofRecord {
    var f := FlushStep(s);
    MakeEof(reason, NextName(opts, f.sequence, reason, clock), env.digest(Concat(f.hashed)), clock.eofTs)
  }

  function EofLine(env: Env, eof: EofRecord): string {
    env.encodeEof(eof) + "\n"
  }

  /** `rotate(reason)`: flush, write the EOF line, end the stream, advance the
      sequence, take the clock's date key and open the next segment. */
  function RotateStep(opts: WriterOptions, env: Env, s: WriterState, reason: Reason, clock: RotationClock): WriterState {
    var f := FlushStep(s);
    var eof := EofFor(opts, env, s, reason, clock);
    var ended := EndStep(WriteToStreamStep(f, EofLine(env, eof)));
    OpenStep(ended.(sequence := NextSequence(f.sequence, reason), currentDateKey := clock.dateKey), eof.nextFile)
  }

  /** Buffering a line, flushing once the batch size is reached. */
  function BufferStep(opts: WriterOptions, s: WriterState, line: string, bytes: int): WriterState {
    var b := s.(buffer := s.buffer + [line], bufferBytes := s.bufferBytes + bytes);
    if b.bufferBytes >= opts.batchSizeBytes then FlushStep(b) else b
  }

  /** The serialised line of a record: its JSON text and a newline. */
  function LineOf(json: string): string {
    json + "\n"
  }

  /** The state after the rotation check of a `log` task. */
  function RotatedFor(opts: WriterOptions, env: Env, s: WriterState, dateKey: string, bytes: int, clock: RotationClock): WriterState {
    if RotationDue(opts, s, dateKey, bytes) then RotateStep(opts, env, s, RotationReason(s, dateKey), clock) else s
  }

  /** The `log` task: a record whose serialisation throws is dropped; otherwise
      the segment is rotated if due, then the line is written (direct levels)
      or buffered. `dateKey` is the record's date key in the writer's zone. */
  function LogStep(opts: WriterOptions, env: Env, s: WriterState, record: LogRecord, dateKey: string, clock: RotationClock): WriterState {
    match env.serialize(record)
    case None => s
    case Some(json) =>
      var line := LineOf(json);
      var bytes := Utf8Length(line);
      var r := RotatedFor(opts, env, s, dateKey, bytes, clock);
      if IsDirect(record.lvl) then WriteLineStep(r, line, bytes) else BufferStep(opts, r, line, bytes)
  }

  /** The `log` task once the record has serialised: the rotation check, then
      the write or the buffering of its line. */
  lemma LogStepOf(opts: WriterOptions, env: Env, s: WriterState, record: LogRecord, dateKey: string, clock: RotationClock)
    requires env.serialize(record).Some?
    ensures var line := LineOf(env.serialize(record).value);
      var bytes := Utf8Length(line);
      var r := RotatedFor(opts, env, s, dateKey, bytes, clock);
      LogStep(opts, env, s, record, dateKey, clock) ==
        if IsDirect(record.lvl) then WriteLineStep(r, line, bytes) else BufferStep(opts, r, line, bytes)
  {
  }

  /** The `close` task: flush, then end the stream. */
  function CloseStep(s: WriterState): WriterState {
    EndStep(FlushStep(s))
  }

  /** The exit handler: the buffer is dropped from memory and, when the stream
      has a descriptor and the synchronous write succeeds (`written`), lands in
      the segment unhashed and uncounted. */
  function ExitStep(s: WriterState, written: bool): WriterState {
    if s.buffer == [] then s
    else
      var c := s.(buffer := [], bufferBytes := 0);
      if s.streamOpen && written then c.(files := Append(c.files, c.currentFileName, Concat(s.buffer))) else c
  }

  /** The state before `initializeFile`. */
  function Unopened(disk: map<string, seq<string>>): WriterState {
    WriterState([], 0, [], 0, "", 0, "", false, disk)
  }

  /** `initializeFile`: the first segment, sequence 0, named from the clock. */
  function InitState(opts: WriterOptions, disk: map<string, seq<string>>, now: int, dateKey: string): WriterState {
    OpenStep(Unopened(disk).(currentDateKey := dateKey, sequence := 0),
             Files.GenerateLogFileName(opts.app, opts.version, dateKey, now, opts.pid, 0))
  }

  // ---------------------------------------------------------------------------
  // Accounting
  // ---------------------------------------------------------------------------

  /** A fresh writer is valid and tracks its hash: one open segment, named with
      sequence 0 and the clock's date key, with nothing buffered or hashed. */
  lemma InitFacts(opts: WriterOptions, disk: map<string, seq<string>>, now: int, dateKey: string)
    ensures var s := InitState(opts, disk, now, dateKey);
      Valid(s) && HashTracksFile(s) && s.streamOpen && s.sequence == 0 && s.currentDateKey == dateKey &&
      s.buffer == [] && s.currentSize == 0 &&
      s.currentFileName == Files.GenerateLogFileName(opts.app, opts.version, dateKey, now, opts.pid, 0) &&
      s.currentFileName in s.files
  {
  }

  lemma WriteLineKeepsAccounts(s: WriterState, line: string)
    requires Valid(s)
    ensures Valid(WriteLineStep(s, line, Utf8Length(line)))
    ensures HashTracksFile(s) ==> HashTracksFile(WriteLineStep(s, line, Utf8Length(line)))
  {
    if s.streamOpen {
      ConcatAppend(s.hashed, line);
      Utf8LengthAppend(Concat(s.hashed), line);
      if HashTracksFile(s) {
        var c := s.files[s.currentFileName];
        var c' := c + [line];
        assert c'[|c'| - |s.hashed + [line]|..] == c[|c| - |s.hashed|..] + [line];
      }
    }
  }

  /** `flushBuffer` empties the buffer and hands its joined lines, with their
      byte count, to `writeLine`: an open segment and the hash get exactly that
      text; with the stream closed it is lost. */
  lemma FlushFacts(s: WriterState)
    requires Valid(s)
    ensures var f := FlushStep(s);
      Valid(f) && f.buffer == [] && f.bufferBytes == 0 &&
      f.currentFileName == s.currentFileName && f.streamOpen == s.streamOpen &&
      f.sequence == s.sequence && f.currentDateKey == s.currentDateKey &&
      (s.buffer != [] && s.streamOpen ==>
         f.hashed == s.hashed + [Concat(s.buffer)] &&
         f.files == Append(s.files, s.currentFileName, Concat(s.buffer))) &&
      (s.buffer == [] || !s.streamOpen ==> f.hashed == s.hashed && f.files == s.files)
    ensures HashTracksFile(s) ==> HashTracksFile(FlushStep(s))
  {
    if s.buffer != [] {
      SumBytesIsJoinedLength(s.buffer);
      WriteLineKeepsAccounts(s.(buffer := [], bufferBytes := 0), Concat(s.buffer));
    }
  }

  /** Buffering keeps the byte count in step with the buffer. */
  lemma BufferKeepsAccounts(opts: WriterOptions, s: WriterState, line: string)
    requires Valid(s)
    ensures Valid(BufferStep(opts, s, line, Utf8Length(line)))
    ensures HashTracksFile(s) ==> HashTracksFile(BufferStep(opts, s, line, Utf8Length(line)))
  {
    SumBytesAppend(s.buffer, line);
    var b := s.(buffer := s.buffer + [line], bufferBytes := s.bufferBytes + Utf8Length(line));
    FlushFacts(b);
  }

  /** What a rotation does: the old segment gets the flushed buffer and then the
      EOF line, unhashed; the next segment is open with a fresh hash and size, is
      the one the EOF names, and takes the clock's date key; the sequence
      restarts at 0 on a date change and otherwise advances by one. */
  lemma RotateFacts(opts: WriterOptions, env: Env, s: WriterState, reason: Reason, clock: RotationClock)
    requires Valid(s) && s.streamOpen
    ensures var f := FlushStep(s);
      var eof := EofFor(opts, env, s, reason, clock);
      var r := RotateStep(opts, env, s, reason, clock);
      Valid(r) && HashTracksFile(r) &&
      IsEofShaped(eof) && eof.reason == reason &&
      eof.checksum == env.digest(Concat(f.hashed)) &&
      r.streamOpen && r.currentFileName == eof.nextFile &&
      r.hashed == [] && r.currentSize == 0 && r.buffer == [] && r.bufferBytes == 0 &&
      r.currentDateKey == clock.dateKey &&
      r.sequence == (if reason == RotateDate then 0 else s.sequence + 1) &&
      s.currentFileName in r.files &&
      r.files[s.currentFileName] == f.files[s.currentFileName] + [EofLine(env, eof)] &&
      (forall x :: x in s.files && x != s.currentFileName && x != eof.nextFile ==> x in r.files && r.files[x] == s.files[x])
  {
    RotateOpensNext(opts, env, s, reason, clock);
    RotateClosesCurrent(opts, env, s, reason, clock);
  }

  /** The segment a rotation opens: named by the EOF record, with a fresh hash,
      size and buffer, the clock's date key and the next sequence number. */
  lemma RotateOpensNext(opts: WriterOptions, env: Env, s: WriterState, reason: Reason, clock: RotationClock)
    requires Valid(s) && s.streamOpen
    ensures var r := RotateStep(opts, env, s, reason, clock);
      Valid(r) && HashTracksFile(r) &&
      r.streamOpen && r.currentFileName == EofFor(opts, env, s, reason, clock).nextFile &&
      r.hashed == [] && r.currentSize == 0 && r.buffer == [] && r.bufferBytes == 0 &&
      r.currentDateKey == clock.dateKey &&
      r.sequence == (if reason == RotateDate then 0 else s.sequence + 1)
  {
    FlushFacts(s);
    var r := RotateStep(opts, env, s, reason, clock);
    assert r.currentFileName in r.files;
    assert Concat([]) == "" && Utf8Length("") == 0 && SumBytes([]) == 0;
  }

  /** The segment a rotation closes gets the EOF line after the flushed buffer;
      no segment other than the next one changes. */
  lemma RotateClosesCurrent(opts: WriterOptions, env: Env, s: WriterState, reason: Reason, clock: RotationClock)
    requires Valid(s) && s.streamOpen
    ensures var f := FlushStep(s);
      var eof := EofFor(opts, env, s, reason, clock);
      var r := RotateStep(opts, env, s, reason, clock);
      s.currentFileName in r.files &&
      r.files[s.currentFileName] == f.files[s.currentFileName] + [EofLine(env, eof)] &&
      (forall x :: x in s.files && x != s.currentFileName && x != eof.nextFile ==> x in r.files && r.files[x] == s.files[x])
  {
    FlushFacts(s);
    var f := FlushStep(s);
    var eof := EofFor(opts, env, s, reason, clock);
    var w := WriteToStreamStep(f, EofLine(env, eof));
    assert w.files == Append(f.files, s.currentFileName, EofLine(env, eof));
    var r := RotateStep(opts, env, s, reason, clock);
    assert r.files == if eof.nextFile in w.files then w.files else w.files[eof.nextFile := []];
  }

  /** The checksum covers what was hashed since the segment was opened and the
      buffer flushed just before: the EOF line itself is not hashed. */
  lemma ChecksumScope(opts: WriterOptions, env: Env, s: WriterState, reason: Reason, clock: RotationClock)
    requires Valid(s) && s.streamOpen
    ensures EofFor(opts, env, s, reason, clock).checksum ==
              env.digest(Concat(s.hashed + (if s.buffer == [] then [] else [Concat(s.buffer)])))
  {
    FlushFacts(s);
    if s.buffer == [] {
      assert s.hashed + [] == s.hashed;
    }
  }

  /** Every `log` task keeps the accounting and the hash's scope. */
  lemma LogKeepsAccounts(opts: WriterOptions, env: Env, s: WriterState, record: LogRecord, dateKey: string, clock: RotationClock)
    requires Valid(s) && HashTracksFile(s)
    ensures Valid(LogStep(opts, env, s, record, dateKey, clock))
    ensures HashTracksFile(LogStep(opts, env, s, record, dateKey, clock))
  {
    if env.serialize(record).Some? {
      var line := LineOf(env.serialize(record).value);
      var bytes := Utf8Length(line);
      var r := RotatedFor(opts, env, s, dateKey, bytes, clock);
      if RotationDue(opts, s, dateKey, bytes) {
        RotateFacts(opts, env, s, RotationReason(s, dateKey), clock);
      }
      assert Valid(r) && HashTracksFile(r);
      if IsDirect(record.lvl) {
        WriteLineKeepsAccounts(r, line);
      } else {
        BufferKeepsAccounts(opts, r, line);
      }
    }
  }

  /** `close` keeps the accounting, and leaves the stream closed and nothing
      buffered. */
  lemma CloseFacts(s: WriterState)
    requires Valid(s)
    ensures var c := CloseStep(s);
      Valid(c) && !c.streamOpen && c.buffer == [] && c.bufferBytes == 0 &&
      c.files == FlushStep(s).files
  {
    FlushFacts(s);
  }

  /** The exit handler empties the buffer and keeps the byte accounting; the
      lines reach the segment, after everything written before, only when the
      stream is open and the synchronous write succeeds. */
  lemma ExitFacts(s: WriterState, written: bool)
    requires Valid(s)
    ensures var e := ExitStep(s, written);
      Valid(e) && e.buffer == [] && e.bufferBytes == 0 && e.hashed == s.hashed &&
      (s.buffer != [] && s.streamOpen && written ==> e.files == Append(s.files, s.currentFileName, Concat(s.buffer))) &&
      (s.buffer == [] || !s.streamOpen || !written ==> e.files == s.files)
  {
  }

  // ---------------------------------------------------------------------------
  // Buffering and direct levels
  // ---------------------------------------------------------------------------

  /** After a `log` task for a buffered level, the buffer has just been flushed
      or stays under the batch size. */
  lemma BufferStaysUnderBatch(opts: WriterOptions, env: Env, s: WriterState, record: LogRecord, dateKey: string, clock: RotationClock)
    requires Valid(s) && !IsDirect(record.lvl)
    ensures var n := LogStep(opts, env, s, record, dateKey, clock);
      env.serialize(record).Some? ==> n.buffer == [] || n.bufferBytes < opts.batchSizeBytes
    ensures env.serialize(record).None? ==> LogStep(opts, env, s, record, dateKey, clock) == s
  {
    if env.serialize(record).Some? {
      var line := LineOf(env.serialize(record).value);
      var bytes := Utf8Length(line);
      var r := RotatedFor(opts, env, s, dateKey, bytes, clock);
      var b := r.(buffer := r.buffer + [line], bufferBytes := r.bufferBytes + bytes);
      if b.bufferBytes >= opts.batchSizeBytes {
        SumBytesAppend(r.buffer, line);
        if RotationDue(opts, s, dateKey, bytes) {
          RotateFacts(opts, env, s, RotationReason(s, dateKey), clock);
        }
        FlushFacts(b);
      }
    }
  }

  /** A direct level is written through without touching the buffer, so it
      lands in the segment before lines buffered earlier. */
  lemma DirectLineBypassesBuffer(opts: WriterOptions, env: Env, s: WriterState, record: LogRecord, dateKey: string, clock: RotationClock)
    requires Valid(s) && IsDirect(record.lvl) && env.serialize(record).Some?
    requires !RotationDue(opts, s, dateKey, Utf8Length(LineOf(env.serialize(record).value)))
    ensures var n := LogStep(opts, env, s, record, dateKey, clock);
      var line := LineOf(env.serialize(record).value);
      n.buffer == s.buffer && n.bufferBytes == s.bufferBytes &&
      (s.streamOpen ==> n.files == Append(s.files, s.currentFileName, line) && n.hashed == s.hashed + [line])
  {
  }

  /** A buffered level below the batch size waits in memory: nothing is written. */
  lemma BufferedLineWaits(opts: WriterOptions, env: Env, s: WriterState, record: LogRecord, dateKey: string, clock: RotationClock)
    requires Valid(s) && !IsDirect(record.lvl) && env.serialize(record).Some?
    requires var bytes := Utf8Length(LineOf(env.serialize(record).value));
      !RotationDue(opts, s, dateKey, bytes) && s.bufferBytes + bytes < opts.batchSizeBytes
    ensures var n := LogStep(opts, env, s, record, dateKey, clock);
      n.buffer == s.buffer + [LineOf(env.serialize(record).value)] && n.files == s.files && n.hashed == s.hashed
  {
  }

  /** Write order is not call order: an INFO line buffered before an ERROR line
      reaches the segment after it. */
  lemma DirectOvertakesBuffered(opts: WriterOptions, env: Env, s: WriterState,
                                info: LogRecord, error: LogRecord, dateKey: string, clock: RotationClock)
    requires Valid(s) && s.streamOpen && s.buffer == []
    requires info.lvl == INFO && error.lvl == ERROR
    requires env.serialize(info).Some? && env.serialize(error).Some?
    requires var b1 := Utf8Length(LineOf(env.serialize(info).value));
      var b2 := Utf8Length(LineOf(env.serialize(error).value));
      dateKey == s.currentDateKey && b1 < opts.batchSizeBytes &&
      s.currentSize + b1 + b2 <= opts.maxFileSizeBytes
    ensures var n := FlushStep(LogStep(opts, env, LogStep(opts, env, s, info, dateKey, clock), error, dateKey, clock));
      var l1 := LineOf(env.serialize(info).value);
      var l2 := LineOf(env.serialize(error).value);
      n.files[s.currentFileName] == s.files[s.currentFileName] + [l2, Concat([l1])]
  {
    var l1 := LineOf(env.serialize(info).value);
    var l2 := LineOf(env.serialize(error).value);
    var s1 := LogStep(opts, env, s, info, dateKey, clock);
    assert s.buffer + [l1] == [l1];
    assert s1 == s.(buffer := [l1], bufferBytes := Utf8Length(l1));
    var s2 := LogStep(opts, env, s1, error, dateKey, clock);
    assert s2 == WriteLineStep(s1, l2, Utf8Length(l2));
    assert s2.files[s.currentFileName] == s.files[s.currentFileName] + [l2];
  }

  // ---------------------------------------------------------------------------
  // Rotation
  // ---------------------------------------------------------------------------

  /** A `log` task rotates exactly when rotation is due, at most once, and the
      reason is a date change whenever the date differs, even if the size also
      overflows. Without rotation the segment, its sequence and date stay. */
  lemma LogRotatesWhenDue(opts: WriterOptions, env: Env, s: WriterState, record: LogRecord, dateKey: string, clock: RotationClock)
    requires Valid(s) && env.serialize(record).Some?
    ensures var bytes := Utf8Length(LineOf(env.serialize(record).value));
      var n := LogStep(opts, env, s, record, dateKey, clock);
      (RotationDue(opts, s, dateKey, bytes) ==>
         var eof := EofFor(opts, env, s, RotationReason(s, dateKey), clock);
         n.currentFileName == eof.nextFile && n.currentDateKey == clock.dateKey &&
         (dateKey != s.currentDateKey ==> eof.reason == RotateDate && n.sequence == 0) &&
         (dateKey == s.currentDateKey ==> eof.reason == RotateSize && n.sequence == s.sequence + 1)) &&
      (!RotationDue(opts, s, dateKey, bytes) ==>
         n.currentFileName == s.currentFileName && n.sequence == s.sequence &&
         n.currentDateKey == s.currentDateKey && n.streamOpen == s.streamOpen)
  {
    var line := LineOf(env.serialize(record).value);
    var bytes := Utf8Length(line);
    var r := RotatedFor(opts, env, s, dateKey, bytes, clock);
    if RotationDue(opts, s, dateKey, bytes) {
      RotateFacts(opts, env, s, RotationReason(s, dateKey), clock);
    }
    PlaceKeepsSegment(opts, r, line, bytes, IsDirect(record.lvl));
  }

  /** Writing or buffering a line never changes the segment, its sequence and
      date, or whether the stream is open. */
  lemma PlaceKeepsSegment(opts: WriterOptions, r: WriterState, line: string, bytes: int, direct: bool)
    ensures var n := if direct then WriteLineStep(r, line, bytes) else BufferStep(opts, r, line, bytes);
      n.currentFileName == r.currentFileName && n.sequence == r.sequence &&
      n.currentDateKey == r.currentDateKey && n.streamOpen == r.streamOpen
  {
  }

  /** A line larger than the size limit rotates the segment whenever a stream is
      open, even an empty segment: that segment then holds only its EOF line. */
  lemma OversizedLineRotatesEmptySegment(opts: WriterOptions, env: Env, s: WriterState, record: LogRecord, dateKey: string, clock: RotationClock)
    requires Valid(s) && HashTracksFile(s) && s.streamOpen && s.buffer == [] && s.hashed == []
    requires s.files[s.currentFileName] == []
    requires env.serialize(record).Some? && Utf8Length(LineOf(env.serialize(record).value)) > opts.maxFileSizeBytes
    requires EofFor(opts, env, s, RotationReason(s, dateKey), clock).nextFile != s.currentFileName
    ensures var eof := EofFor(opts, env, s, RotationReason(s, dateKey), clock);
      var n := LogStep(opts, env, s, record, dateKey, clock);
      s.currentFileName in n.files && n.files[s.currentFileName] == [EofLine(env, eof)] &&
      eof.checksum == env.digest("")
  {
    var line := LineOf(env.serialize(record).value);
    var bytes := Utf8Length(line);
    assert RotationDue(opts, s, dateKey, bytes);
    var reason := RotationReason(s, dateKey);
    RotateFacts(opts, env, s, reason, clock);
    var r := RotateStep(opts, env, s, reason, clock);
    var eof := EofFor(opts, env, s, reason, clock);
    if IsDirect(record.lvl) {
      WriteLineKeepsAccounts(r, line);
    } else {
      SumBytesAppend(r.buffer, line);
      FlushFacts(r.(buffer := r.buffer + [line], bufferBytes := r.bufferBytes + bytes));
    }
  }

  /** After a rotation the date key comes from the clock, not from the record:
      when the clock's date differs from the record's, the next record of that
      date rotates again. */
  lemma RotationFollowsClockDate(opts: WriterOptions, env: Env, s: WriterState, reason: Reason,
                                 clock: RotationClock, recordDate: string, bytes: int)
    requires Valid(s) && s.streamOpen && clock.dateKey != recordDate
    ensures RotationDue(opts, RotateStep(opts, env, s, reason, clock), recordDate, bytes)
  {
    RotateFacts(opts, env, s, reason, clock);
  }

  // ---------------------------------------------------------------------------
  // A closed writer
  // ---------------------------------------------------------------------------

  /** Once the stream is ended, nothing is written and nothing rotates: direct
      lines and flushed buffers are discarded, and the stream stays closed. */
  lemma ClosedWriterDiscards(opts: WriterOptions, env: Env, s: WriterState, record: LogRecord, dateKey: string, clock: RotationClock)
    requires !s.streamOpen
    ensures var n := LogStep(opts, env, s, record, dateKey, clock);
      n.files == s.files && !n.streamOpen && n.currentFileName == s.currentFileName && n.sequence == s.sequence
    ensures FlushStep(s).files == s.files && !FlushStep(s).streamOpen
  {
  }

  // ---------------------------------------------------------------------------
  // Two lines over the size limit
  // ---------------------------------------------------------------------------

  /** A buffered line with a batch size it reaches is written at once: it ends
      up in the segment open after the rotation check, and no other segment
      changes. */
  lemma FlushedLogFacts(opts: WriterOptions, env: Env, s: WriterState, record: LogRecord, dateKey: string, clock: RotationClock)
    requires Valid(s) && s.streamOpen && !IsDirect(record.lvl) && env.serialize(record).Some?
    requires opts.batchSizeBytes <= 1
    ensures var line := LineOf(env.serialize(record).value);
      var r := RotatedFor(opts, env, s, dateKey, Utf8Length(line), clock);
      var n := LogStep(opts, env, s, record, dateKey, clock);
      Valid(r) && r.streamOpen && Valid(n) && n.streamOpen && n.buffer == [] &&
      n.currentFileName == r.currentFileName && n.sequence == r.sequence &&
      n.currentDateKey == r.currentDateKey &&
      n.currentSize == r.currentSize + r.bufferBytes + Utf8Length(line) &&
      n.currentFileName in n.files &&
      n.files[n.currentFileName] == r.files[r.currentFileName] + [Concat(r.buffer + [line])] &&
      (forall x :: x in r.files && x != r.currentFileName ==> x in n.files && n.files[x] == r.files[x])
  {
    var line := LineOf(env.serialize(record).value);
    var bytes := Utf8Length(line);
    var r := RotatedFor(opts, env, s, dateKey, bytes, clock);
    if RotationDue(opts, s, dateKey, bytes) {
      RotateFacts(opts, env, s, RotationReason(s, dateKey), clock);
    }
    BufferFlushFacts(opts, r, line);
  }

  /** With a batch size of at most one byte, a buffered line is flushed at
      once, together with what was buffered before it, into the open segment. */
  lemma BufferFlushFacts(opts: WriterOptions, r: WriterState, line: string)
    requires Valid(r) && r.streamOpen && opts.batchSizeBytes <= 1 && line != []
    ensures var n := BufferStep(opts, r, line, Utf8Length(line));
      Valid(n) && n.streamOpen && n.buffer == [] &&
      n.currentFileName == r.currentFileName && n.sequence == r.sequence &&
      n.currentDateKey == r.currentDateKey &&
      n.currentSize == r.currentSize + r.bufferBytes + Utf8Length(line) &&
      n.currentFileName in n.files &&
      n.files[n.currentFileName] == r.files[r.currentFileName] + [Concat(r.buffer + [line])] &&
      (forall x :: x in r.files && x != r.currentFileName ==> x in n.files && n.files[x] == r.files[x])
  {
    var bytes := Utf8Length(line);
    Utf8LengthBounds(line);
    SumBytesAppend(r.buffer, line);
    var b := r.(buffer := r.buffer + [line], bufferBytes := r.bufferBytes + bytes);
    FlushFacts(b);
  }

  /** The shape of a writer that has just opened its first segment of the day. */
  predicate FreshSegment(opts: WriterOptions, s: WriterState, now: int, dateKey: string) {
    Valid(s) && s.streamOpen && s.buffer == [] && s.bufferBytes == 0 && s.currentSize == 0 &&
    s.sequence == 0 && s.currentDateKey == dateKey &&
    s.currentFileName == Files.GenerateLogFileName(opts.app, opts.version, dateKey, now, opts.pid, 0)
  }

  /** The conclusion of the two-line scenario: segment `first` ends with an EOF
      line that names another segment on disk. */
  ghost predicate ClosedWithEof(env: Env, n: WriterState, first: string) {
    first in n.files && |n.files[first]| > 0 &&
    exists e: EofRecord :: n.files[first][|n.files[first]| - 1] == EofLine(env, e) && IsEofShaped(e) &&
                           e.nextFile in n.files && e.nextFile != first
  }

  /** The first line alone is over the limit: the empty first segment is closed
      at once, and the second line rotates again. */
  lemma FirstLineOversized(opts: WriterOptions, env: Env, s0: WriterState, now: int, dateKey: string,
                           r1: LogRecord, r2: LogRecord, c1: RotationClock, c2: RotationClock)
    requires FreshSegment(opts, s0, now, dateKey)
    requires opts.batchSizeBytes <= 1 && !IsDirect(r1.lvl) && !IsDirect(r2.lvl)
    requires env.serialize(r1).Some? && env.serialize(r2).Some?
    requires Utf8Length(LineOf(env.serialize(r1).value)) > opts.maxFileSizeBytes
    requires c1.dateKey == dateKey && c2.dateKey == dateKey && now >= 0 && c1.now >= 0 && c2.now >= 0
    ensures ClosedWithEof(env, LogStep(opts, env, LogStep(opts, env, s0, r1, dateKey, c1), r2, dateKey, c2), s0.currentFileName)
  {
    var first := s0.currentFileName;
    var b1 := Utf8Length(LineOf(env.serialize(r1).value));
    var b2 := Utf8Length(LineOf(env.serialize(r2).value));
    Utf8LengthBounds(LineOf(env.serialize(r2).value));
    var e := EofFor(opts, env, s0, RotateSize, c1);
    RotateFacts(opts, env, s0, RotateSize, c1);
    Files.DistinctSequencesDistinctNames(opts.app, opts.version, dateKey, opts.pid, now, 0, c1.now, 1);
    var q1 := RotatedFor(opts, env, s0, dateKey, b1, c1);
    assert q1.files[first] == [] + [EofLine(env, e)] || q1.files[first] == s0.files[first] + [EofLine(env, e)];
    FlushedLogFacts(opts, env, s0, r1, dateKey, c1);
    var s1 := LogStep(opts, env, s0, r1, dateKey, c1);
    assert s1.files[first] == q1.files[first];
    assert s1.currentSize >= b1;
    RotateFacts(opts, env, s1, RotateSize, c2);
    Files.DistinctSequencesDistinctNames(opts.app, opts.version, dateKey, opts.pid, now, 0, c2.now, 2);
    var q2 := RotatedFor(opts, env, s1, dateKey, b2, c2);
    assert q2.files[first] == s1.files[first];
    FlushedLogFacts(opts, env, s1, r2, dateKey, c2);
    var n := LogStep(opts, env, s1, r2, dateKey, c2);
    assert n.files[first] == q1.files[first];
    assert n.files[first][|n.files[first]| - 1] == EofLine(env, e);
  }

  /** The first line fits: it is written to the first segment, and the second
      line closes that segment. */
  lemma FirstLineFits(opts: WriterOptions, env: Env, s0: WriterState, now: int, dateKey: string,
                      r1: LogRecord, r2: LogRecord, c1: RotationClock, c2: RotationClock)
    requires FreshSegment(opts, s0, now, dateKey)
    requires opts.batchSizeBytes <= 1 && !IsDirect(r1.lvl) && !IsDirect(r2.lvl)
    requires env.serialize(r1).Some? && env.serialize(r2).Some?
    requires Utf8Length(LineOf(env.serialize(r1).value)) <= opts.maxFileSizeBytes
    requires Utf8Length(LineOf(env.serialize(r1).value)) + Utf8Length(LineOf(env.serialize(r2).value)) > opts.maxFileSizeBytes
    requires c2.dateKey == dateKey && now >= 0 && c2.now >= 0
    ensures ClosedWithEof(env, LogStep(opts, env, LogStep(opts, env, s0, r1, dateKey, c1), r2, dateKey, c2), s0.currentFileName)
  {
    var first := s0.currentFileName;
    var b2 := Utf8Length(LineOf(env.serialize(r2).value));
    FlushedLogFacts(opts, env, s0, r1, dateKey, c1);
    var s1 := LogStep(opts, env, s0, r1, dateKey, c1);
    assert s1.currentFileName == first && s1.sequence == 0;
    var e := EofFor(opts, env, s1, RotateSize, c2);
    RotateFacts(opts, env, s1, RotateSize, c2);
    Files.DistinctSequencesDistinctNames(opts.app, opts.version, dateKey, opts.pid, now, 0, c2.now, 1);
    var q2 := RotatedFor(opts, env, s1, dateKey, b2, c2);
    FlushedLogFacts(opts, env, s1, r2, dateKey, c2);
    var n := LogStep(opts, env, s1, r2, dateKey, c2);
    assert n.files[first] == q2.files[first];
    assert n.files[first][|n.files[first]| - 1] == EofLine(env, e);
  }

  /** Two buffered records whose lines together exceed the size limit, logged
      on one day with a batch size of one byte, leave at least two segments:
      the first ends with an EOF line naming another segment on disk. */
  lemma TwoLinesOverTheLimitRotate(opts: WriterOptions, env: Env, disk: map<string, seq<string>>, now: int, dateKey: string,
                                   r1: LogRecord, r2: LogRecord, c1: RotationClock, c2: RotationClock)
    requires opts.batchSizeBytes <= 1 && !IsDirect(r1.lvl) && !IsDirect(r2.lvl)
    requires env.serialize(r1).Some? && env.serialize(r2).Some?
    requires Utf8Length(LineOf(env.serialize(r1).value)) + Utf8Length(LineOf(env.serialize(r2).value)) > opts.maxFileSizeBytes
    requires c1.dateKey == dateKey && c2.dateKey == dateKey && now >= 0 && c1.now >= 0 && c2.now >= 0
    ensures var s0 := InitState(opts, disk, now, dateKey);
      ClosedWithEof(env, LogStep(opts, env, LogStep(opts, env, s0, r1, dateKey, c1), r2, dateKey, c2), s0.currentFileName)
  {
    var s0 := InitState(opts, disk, now, dateKey);
    InitFacts(opts, disk, now, dateKey);
    if Utf8Length(LineOf(env.serialize(r1).value)) > opts.maxFileSizeBytes {
      FirstLineOversized(opts, env, s0, now, dateKey, r1, r2, c1, c2);
    } else {
      FirstLineFits(opts, env, s0, now, dateKey, r1, r2, c1, c2);
    }
  }

  // ---------------------------------------------------------------------------
  // The writer object
  // ---------------------------------------------------------------------------

  /** `FileTransport`: the fields of the source, updated in place. The flush
      timer's tick and the `flush` call both run `Flush`. */
  class FileTransport {
    const opts: WriterOptions
    const env: Env
    var buffer: seq<string>
    var bufferBytes: int
    var hashed: seq<string>
    var currentSize: int
    var currentDateKey: string
    var sequence: nat
    var currentFileName: string
    var streamOpen: bool
    var files: map<string, seq<string>>

    /** The writer's fields as a value. */
    function State(): WriterState
      reads this
    {
      WriterState(buffer, bufferBytes, hashed, currentSize, currentDateKey, sequence, currentFileName, streamOpen, files)
    }

    /** The constructor opens the first segment (`initializeFile`). */
    constructor (opts: WriterOptions, env: Env, disk: map<string, seq<string>>, now: int, dateKey: string)
      ensures this.opts == opts && this.env == env
      ensures State() == InitState(opts, disk, now, dateKey)
      ensures Valid(State()) && HashTracksFile(State())
    {
      this.opts := opts;
      this.env := env;
      buffer := [];
      bufferBytes := 0;
      hashed := [];
      currentSize := 0;
      currentDateKey := "";
      sequence := 0;
      currentFileName := "";
      streamOpen := false;
      files := disk;
      new;
      InitializeFile(now, dateKey);
      InitFacts(opts, disk, now, dateKey);
    }

    method InitializeFile(now: int, dateKey: string)
      modifies this
      ensures State() == OpenStep(old(State()).(currentDateKey := dateKey, sequence := 0),
                                  Files.GenerateLogFileName(opts.app, opts.version, dateKey, now, opts.pid, 0))
    {
      currentDateKey := dateKey;
      sequence := 0;
      var fileName := Files.GenerateLogFileName(opts.app, opts.version, dateKey, now, opts.pid, sequence);
      OpenStream(fileName);
    }

    method OpenStream(fileName: string)
      modifies this
      ensures State() == OpenStep(old(State()), fileName)
    {
      currentFileName := fileName;
      currentSize := 0;
      hashed := [];
      if fileName !in files {
        files := files[fileName := []];
      }
      streamOpen := true;
    }

    method WriteToStream(chunk: string)
      modifies this
      ensures State() == WriteToStreamStep(old(State()), chunk)
    {
      if !streamOpen {
        return;
      }
      files := Append(files, currentFileName, chunk);
    }

    method WriteLine(line: string, bytes: int)
      modifies this
      ensures State() == WriteLineStep(old(State()), line, bytes)
    {
      if !streamOpen {
        return;
      }
      hashed := hashed + [line];
      currentSize := currentSize + bytes;
      WriteToStream(line);
    }

    method FlushBuffer()
      modifies this
      ensures State() == FlushStep(old(State()))
    {
      if |buffer| == 0 {
        return;
      }
      var content := Concat(buffer);
      buffer := [];
      var bytes := bufferBytes;
      bufferBytes := 0;
      WriteLine(content, bytes);
    }

    method EndStream()
      modifies this
      ensures State() == EndStep(old(State()))
    {
      if !streamOpen {
        return;
      }
      streamOpen := false;
    }

    /** Reads the fields only. */
    method ShouldRotate(dateKey: string, incomingBytes: int) returns (r: bool)
      ensures r == RotationDue(opts, State(), dateKey, incomingBytes)
    {
      if !streamOpen {
        return false;
      }
      if dateKey != currentDateKey {
        return true;
      }
      if currentSize + bufferBytes + incomingBytes > opts.maxFileSizeBytes {
        return true;
      }
      return false;
    }

    method Rotate(reason: Reason, clock: RotationClock)
      modifies this
      ensures State() == RotateStep(opts, env, old(State()), reason, clock)
    {
      ghost var s := State();
      FlushBuffer();
      ghost var f := State();
      var checksum := env.digest(Concat(hashed));
      var nextSequence := if reason == RotateDate then 0 else sequence + 1;
      var nextFileName := Files.GenerateLogFileName(opts.app, opts.version, clock.dateKey, clock.now, opts.pid, nextSequence);
      var eof := MakeEof(reason, nextFileName, checksum, clock.eofTs);
      assert eof == EofFor(opts, env, s, reason, clock);
      var eofLine := env.encodeEof(eof) + "\n";
      WriteToStream(eofLine);
      EndStream();
      ghost var ended := State();
      assert ended == EndStep(WriteToStreamStep(f, EofLine(env, eof)));
      sequence := nextSequence;
      currentDateKey := clock.dateKey;
      assert State() == ended.(sequence := NextSequence(f.sequence, reason), currentDateKey := clock.dateKey);
      OpenStream(nextFileName);
    }

    /** The `log` task body. */
    method Log(record: LogRecord, dateKey: string, clock: RotationClock)
      modifies this
      ensures State() == LogStep(opts, env, old(State()), record, dateKey, clock)
    {
      var serialized := env.serialize(record);
      if serialized.None? {
        return;
      }
      var line := serialized.value + "\n";
      var lineBytes := Utf8Length(line);
      ghost var s := State();
      var rotate := ShouldRotate(dateKey, lineBytes);
      if rotate {
        var reason := if dateKey != currentDateKey then RotateDate else RotateSize;
        assert reason == RotationReason(s, dateKey);
        Rotate(reason, clock);
      }
      ghost var r := State();
      assert r == RotatedFor(opts, env, s, dateKey, lineBytes, clock);
      if IsDirect(record.lvl) {
        WriteLine(line, lineBytes);
        assert State() == WriteLineStep(r, line, lineBytes);
      } else {
        BufferLine(line, lineBytes);
      }
      LogStepOf(opts, env, s, record, dateKey, clock);
    }

    /** The buffered branch of the `log` task: the line joins the buffer,
        which is flushed once it reaches the batch size. */
    method BufferLine(line: string, lineBytes: int)
      modifies this
      ensures State() == BufferStep(opts, old(State()), line, lineBytes)
    {
      buffer := buffer + [line];
      bufferBytes := bufferBytes + lineBytes;
      if bufferBytes >= opts.batchSizeBytes {
        FlushBuffer();
      }
    }

    method Flush()
      modifies this
      ensures State() == FlushStep(old(State()))
    {
      FlushBuffer();
    }

    method Close()
      modifies this
      ensures State() == CloseStep(old(State()))
    {
      FlushBuffer();
      EndStream();
    }

    /** The exit handler's body; `written` says whether the stream had a
        descriptor and the synchronous write succeeded. */
    method OnExit(written: bool)
      modifies this
      ensures State() == ExitStep(old(State()), written)
    {
      if |buffer| == 0 {
        return;
      }
      var content := Concat(buffer);
      buffer := [];
      bufferBytes := 0;
      if streamOpen && written {
        files := Append(files, currentFileName, content);
      }
    }
  }
}
