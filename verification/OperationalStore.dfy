/** The append-only operational journal: a file of frames, and the window of recent records kept in memory. */
module OperationalStore {
  import opened Bytes
  import opened FrameLog
  import opened Frames
  import opened Wrappers

  const FILE_MAGIC: seq<byte> := [0x43, 0x48, 0x4d, 0x49, 0x4a, 0x4e, 0x4c, 0x31]
  const MAXIMUM_CONFIGURED_PAYLOAD_BYTES: nat := 256 * 1024 * 1024

  datatype Config = Config(maximumPayload: nat, maximumFile: nat, recentLimit: nat, synchronize: bool)

  predicate ValidConfig(c: Config) {
    && 0 < c.maximumPayload <= MAXIMUM_CONFIGURED_PAYLOAD_BYTES
    && |FILE_MAGIC| + HEADER_SIZE <= c.maximumFile < 0x1_0000_0000_0000_0000
    && 0 < c.recentLimit
  }

  function ReaderOf<J>(c: Config, codec: PayloadCodec<J>): Reader<Record<J>> {
    (data: seq<byte>, expected: nat) => ReadFrame(data, expected, c.maximumPayload, codec)
  }

  function WriterOf<J>(c: Config, codec: PayloadCodec<J>): Writer<Record<J>> {
    (r: Record<J>) => FrameOf(r, c.synchronize, codec)
  }

  lemma ReaderSized<J(!new)>(c: Config, codec: PayloadCodec<J>)
    ensures Sized(ReaderOf(c, codec))
    ensures forall expected :: ReaderOf(c, codec)([], expected) == AtEnd
  {
  }

  /** Reading one frame through the header buffer: short reads are torn tails. */
  method ReadNext<J>(data: seq<byte>, position: nat, expected: nat, c: Config, codec: PayloadCodec<J>)
    returns (outcome: Outcome<Record<J>>)
    requires position <= |data|
    ensures outcome == ReadFrame(data[position..], expected, c.maximumPayload, codec)
    ensures outcome.AtEnd? <==> position == |data|
    ensures outcome.Complete? ==> 0 < outcome.size <= |data| - position
  {
    hide DecodeHeader, FrameCrc, ValidKind;
    var rest := data[position..];
    if |rest| == 0 {
      return AtEnd;
    }
    if |rest| < HEADER_SIZE {
      return Torn;
    }
    var buffer := new byte[HEADER_SIZE](i requires 0 <= i < HEADER_SIZE => rest[i]);
    assert buffer[..] == rest[..HEADER_SIZE];
    var h := ReadHeader(buffer);
    if !HeaderAccepted(h, expected, c.maximumPayload) {
      return Corrupt;
    }
    var size := HEADER_SIZE + h.kindSize + h.payloadSize;
    if |rest| < size {
      return Torn;
    }
    var kind := rest[HEADER_SIZE..HEADER_SIZE + h.kindSize];
    var payload := rest[HEADER_SIZE + h.kindSize..size];
    var crc := ComputeFrameCrc(h.sequence, kind, payload);
    if !ValidKind(kind) || crc != h.crc {
      return Corrupt;
    }
    match codec.parse(payload)
    case None => return Corrupt;
    case Some(j) => return Complete(Record(h.sequence, kind, j), size);
  }

  function LastOf<T>(s: seq<T>, limit: nat): (r: seq<T>)
    ensures |r| == if limit < |s| then limit else |s|
  {
    if limit < |s| then s[|s| - limit..] else s
  }

  /** The state of the journal: the file on disk, and what the object remembers of it. */
  datatype State<J> = State(file: seq<byte>, nextSequence: nat, recent: seq<Record<J>>, recoveredTail: nat)

  function Existing(file: Option<seq<byte>>): seq<byte> {
    match file case None => FILE_MAGIC case Some(bytes) => bytes
  }

  predicate StartsWithMagic(file: seq<byte>) {
    |file| >= |FILE_MAGIC| && file[..|FILE_MAGIC|] == FILE_MAGIC
  }

  function Opened<J(!new)>(existing: Option<seq<byte>>, c: Config, codec: PayloadCodec<J>): Option<State<J>> {
    var file := Existing(existing);
    ReaderSized(c, codec);
    if |file| > c.maximumFile || !StartsWithMagic(file) then None
    else match Replay(file[|FILE_MAGIC|..], 1, ReaderOf(c, codec))
      case Refused => None
      case Replayed(records, complete) =>
        var kept := |FILE_MAGIC| + complete;
        Some(State(file[..kept], |records| + 1, LastOf(records, c.recentLimit), |file| - kept))
  }

  datatype AppendError = InvalidKind | PayloadLimit | FileLimit

  function Appended<J>(s: State<J>, kind: seq<byte>, payload: J, c: Config, codec: PayloadCodec<J>)
    : Result<State<J>, AppendError>
  {
    var encoded := codec.dump(payload);
    if !ValidKind(kind) then Failure(InvalidKind)
    else if |encoded| > c.maximumPayload then Failure(PayloadLimit)
    else if |s.file| + HEADER_SIZE + |kind| + |encoded| > c.maximumFile then Failure(FileLimit)
    else
      var record := Record(s.nextSequence, kind, payload);
      Success(s.(file := s.file + FrameOf(record, c.synchronize, codec), nextSequence := s.nextSequence + 1,
                 recent := LastOf(s.recent + [record], c.recentLimit)))
  }

  // The journal as the service holds it

  class Journal<J(!new)> {
    const config: Config
    const codec: PayloadCodec<J>
    var file: seq<byte>
    var nextSequence: nat
    var recent: seq<Record<J>>
    var recoveredTail: nat

    constructor (config: Config, codec: PayloadCodec<J>)
      ensures this.config == config && this.codec == codec
      ensures file == [] && nextSequence == 1 && recent == [] && recoveredTail == 0
    {
      this.config, this.codec := config, codec;
      file, nextSequence, recent, recoveredTail := [], 1, [], 0;
    }

    function Current(): State<J>
      reads this
    {
      State(file, nextSequence, recent, recoveredTail)
    }

    /** Replays an existing file, or creates one; a refusal is an exception of the constructor. */
    method OpenAndRecover(existing: Option<seq<byte>>) returns (ok: bool)
      requires ValidConfig(config) && nextSequence == 1 && recent == [] && recoveredTail == 0
      modifies this
      ensures ok == Opened(existing, config, codec).Some?
      ensures ok ==> Current() == Opened(existing, config, codec).value
    {
      hide ReadFrame, ReaderOf;
      file := Existing(existing);
      var fileSize := |file|;
      if fileSize > config.maximumFile || !StartsWithMagic(file) {
        return false;
      }
      ReaderSized(config, codec);
      var accepted, complete, expected := ReplayLoop(file[|FILE_MAGIC|..]);
      if !accepted {
        return false;
      }
      var lastComplete := |FILE_MAGIC| + complete;
      if lastComplete < fileSize {
        recoveredTail := fileSize - lastComplete;
        file := file[..lastComplete];
      }
      nextSequence := expected;
      return true;
    }

    /** The replay loop: stops at the end of the file or at a torn tail, gives up on a corrupt frame. */
    method ReplayLoop(data: seq<byte>) returns (accepted: bool, complete: nat, expected: nat)
      requires ValidConfig(config) && recent == []
      requires Sized(ReaderOf(config, codec))
      modifies this`recent
      ensures match Replay(data, 1, ReaderOf(config, codec))
              case Refused => !accepted
              case Replayed(records, taken) => accepted && complete == taken && expected == |records| + 1
                                               && recent == LastOf(records, config.recentLimit)
    {
      hide ReadFrame, Replay, Joined;
      ghost var read := ReaderOf(config, codec);
      ghost var records: seq<Record<J>> := [];
      accepted, complete, expected := true, 0, 1;
      JoinStart(data, 1, read);
      while true
        invariant complete <= |data| && expected == |records| + 1 && accepted
        invariant recent == LastOf(records, config.recentLimit)
        invariant Replay(data, 1, read) == Joined(records, complete, Replay(data[complete..], expected, read))
        decreases |data| - complete
      {
        var outcome := ReadNext(data, complete, expected, config, codec);
        assert outcome == read(data[complete..], expected) by { hide Sized; }
        match outcome {
          case AtEnd =>
            JoinEnd(data, records, complete, expected, read);
            break;
          case Torn =>
            JoinEnd(data, records, complete, expected, read);
            break;
          case Corrupt =>
            JoinEnd(data, records, complete, expected, read);
            return false, complete, expected;
          case Complete(record, size) =>
            JoinStep(data, records, complete, expected, read);
            Remember(record, records);
            records := records + [record];
            expected := expected + 1;
            complete := complete + size;
        }
      }
    }

    method Remember(record: Record<J>, ghost before: seq<Record<J>>)
      requires 0 < config.recentLimit && recent == LastOf(before, config.recentLimit)
      modifies this`recent
      ensures recent == LastOf(before + [record], config.recentLimit)
    {
      if |recent| >= config.recentLimit {
        recent := recent[1..];
      }
      recent := recent + [record];
    }

    /** Appends one record: the frame reaches the file whole before the object changes. */
    method Append(kind: seq<byte>, payload: J) returns (r: Result<nat, AppendError>)
      requires ValidConfig(config) && |recent| <= config.recentLimit
      modifies this
      ensures match Appended(old(Current()), kind, payload, config, codec)
              case Failure(e) => r == Failure(e) && Current() == old(Current())
              case Success(s) => r == Success(old(nextSequence)) && Current() == s
    {
      hide EncodeHeader, FrameCrc, ValidKind;
      if !ValidKind(kind) {
        return Failure(InvalidKind);
      }
      var encoded := codec.dump(payload);
      if |encoded| > config.maximumPayload {
        return Failure(PayloadLimit);
      }
      var frameSize := HEADER_SIZE + |kind| + |encoded|;
      if |file| > config.maximumFile || frameSize > config.maximumFile - |file| {
        return Failure(FileLimit);
      }
      var crc := ComputeFrameCrc(nextSequence, kind, encoded);
      var header := WriteHeader(Header(FRAME_MAGIC, FRAME_VERSION, |kind|, |encoded|,
                                       if config.synchronize then 1 else 0, nextSequence, crc, 0));
      file := file + header[..];
      file := file + kind;
      file := file + encoded;
      assert file == old(file) + (header[..] + kind + encoded);
      var sequence := nextSequence;
      nextSequence := nextSequence + 1;
      assert recent == LastOf(recent, config.recentLimit);
      Remember(Record(sequence, kind, payload), recent);
      return Success(sequence);
    }

    method Recent(limit: nat) returns (records: seq<Record<J>>)
      ensures records == LastOf(recent, limit)
    {
      var count := if limit < |recent| then limit else |recent|;
      records := recent[|recent| - count..];
    }
  }

  // Histories: what a run of completed appends leaves behind

  /** A history is numbered from one, each record within the limits that append checks. */
  ghost predicate History<J>(h: seq<Record<J>>, c: Config, codec: PayloadCodec<J>) {
    forall i :: 0 <= i < |h| ==> h[i].sequence == i + 1 && Writable(h[i], c.maximumPayload, codec)
  }

  /** The file of a history: the magic, then the frames in order. */
  ghost function FileOf<J>(h: seq<Record<J>>, c: Config, codec: PayloadCodec<J>): seq<byte> {
    FILE_MAGIC + FrameLog.Frames(h, WriterOf(c, codec))
  }

  function Nests<J>(codec: PayloadCodec<J>): Record<J> -> bool {
    (r: Record<J>) => codec.nesting(r.payload) <= MAXIMUM_NESTING
  }

  /** The frame format meets the law of the frame log. */
  lemma FramesDelimited<J(!new)>(h: seq<Record<J>>, c: Config, codec: PayloadCodec<J>)
    requires Faithful(codec) && History(h, c, codec)
    ensures AllSelfDelimiting(ReaderOf(c, codec), WriterOf(c, codec), h, 1, Nests(codec))
  {
    hide ReadFrame, FrameOf, Writable;
    var read, write := ReaderOf(c, codec), WriterOf(c, codec);
    forall i | 0 <= i < |h| ensures SelfDelimiting(read, write, h[i], 1 + i, Nests(codec)(h[i])) {
      var r, n := h[i], 1 + i;
      FrameNonempty(r, c, codec);
      forall rest
        ensures read(write(r) + rest, n) == if Nests(codec)(r) then Complete(r, |write(r)|) else Corrupt
      {
        ReadWrittenFrame(r, c.synchronize, rest, c.maximumPayload, codec);
      }
      forall torn | [] < torn < write(r) ensures read(torn, n) == Torn {
        ReadTornFrame(r, c.synchronize, |torn|, c.maximumPayload, codec);
        assert write(r)[..|torn|] == torn;
      }
    }
  }

  lemma FrameNonempty<J>(r: Record<J>, c: Config, codec: PayloadCodec<J>)
    ensures |FrameOf(r, c.synchronize, codec)| == HEADER_SIZE + |r.kind| + |codec.dump(r.payload)|
  {
  }

  /** Each frame takes at least 33 bytes, so a bounded file never exhausts the 64-bit sequence numbers. */
  lemma {:induction false} FramesLength<J>(h: seq<Record<J>>, c: Config, codec: PayloadCodec<J>)
    requires forall i :: 0 <= i < |h| ==> ValidKind(h[i].kind)
    ensures |FrameLog.Frames(h, WriterOf(c, codec))| >= (HEADER_SIZE + 1) * |h|
    decreases |h|
  {
    hide FrameOf;
    if h != [] {
      FrameNonempty(h[0], c, codec);
      FramesLength(h[1..], c, codec);
      assert ValidKind(h[0].kind);
    }
  }

  ghost function WholeRecords<J>(h: seq<Record<J>>, n: nat, c: Config, codec: PayloadCodec<J>): (k: nat)
    ensures k <= |h|
  {
    if n < |FILE_MAGIC| then 0 else WholeFrames(h, n - |FILE_MAGIC|, WriterOf(c, codec))
  }

  /** Crash recovery: cut the file of a history anywhere. Reopening succeeds exactly when the file magic
      survived and no surviving payload nests deeper than replay accepts (append never checks that); it then
      yields the records whose frames end by the cut, truncates to that boundary, reports the torn bytes,
      and numbers the next record after them. */
  lemma CrashRecovery<J(!new)>(h: seq<Record<J>>, n: nat, c: Config, codec: PayloadCodec<J>)
    requires ValidConfig(c) && Faithful(codec) && History(h, c, codec)
    requires n <= |FileOf(h, c, codec)| <= c.maximumFile
    ensures var k := WholeRecords(h, n, c, codec);
      var kept := FileOf(h[..k], c, codec);
      && (n >= |FILE_MAGIC| ==> |kept| <= n)
      && Opened(Some(FileOf(h, c, codec)[..n]), c, codec)
         == (if n >= |FILE_MAGIC| && All(h[..k], Nests(codec))
             then Some(State(kept, k + 1, LastOf(h[..k], c.recentLimit), n - |kept|)) else None)
  {
    hide FrameOf, ReadFrame, Writable, Faithful, Sized, AllSelfDelimiting, All, FrameLog.Frames, Replay;
    var read, write := ReaderOf(c, codec), WriterOf(c, codec);
    var frames := FrameLog.Frames(h, write);
    var file := FileOf(h, c, codec)[..n];
    ReaderSized(c, codec);
    if n >= |FILE_MAGIC| {
      var m := n - |FILE_MAGIC|;
      FramesDelimited(h, c, codec);
      ReplayCut(h, m, 1, read, write, Nests(codec));
      assert file[..|FILE_MAGIC|] == FILE_MAGIC;
      assert file[|FILE_MAGIC|..] == frames[..m];
      var whole := FrameLog.Frames(h[..WholeFrames(h, m, write)], write);
      assert file[..|FILE_MAGIC| + |whole|] == FILE_MAGIC + frames[..|whole|];
    }
  }

  lemma WholeFramesAll<J>(h: seq<Record<J>>, c: Config, codec: PayloadCodec<J>)
    ensures WholeRecords(h, |FileOf(h, c, codec)|, c, codec) == |h|
  {
    hide FrameOf;
    var write := WriterOf(c, codec);
    var n := |FrameLog.Frames(h, write)|;
    var torn := CutFrames(h, n, write);
    var k := WholeFrames(h, n, write);
    if k < |h| {
      assert h[..k] + h[k..] == h;
      FramesConcat(h[..k], h[k..], write);
    }
  }

  /** The whole file of a history reopens exactly when no payload nests beyond what replay accepts. */
  lemma ReopenIffReplayable<J(!new)>(h: seq<Record<J>>, c: Config, codec: PayloadCodec<J>)
    requires ValidConfig(c) && Faithful(codec) && History(h, c, codec)
    requires |FileOf(h, c, codec)| <= c.maximumFile
    ensures Opened(Some(FileOf(h, c, codec)), c, codec)
         == if All(h, Nests(codec)) then Some(State(FileOf(h, c, codec), |h| + 1, LastOf(h, c.recentLimit), 0)) else None
  {
    hide FrameOf, ReadFrame, Writable, Faithful;
    var file := FileOf(h, c, codec);
    CrashRecovery(h, |file|, c, codec);
    WholeFramesAll(h, c, codec);
    assert h[..|h|] == h && file[..|file|] == file;
  }

  // Runs of appends and crashes

  datatype Event<J> = Append(kind: seq<byte>, payload: J) | CrashAndReopen(cut: nat)

  /** The file and the window agree with one history, within the configured limits. */
  ghost predicate Consistent<J>(s: State<J>, h: seq<Record<J>>, c: Config, codec: PayloadCodec<J>) {
    && History(h, c, codec) && s.file == FileOf(h, c, codec) && |s.file| <= c.maximumFile
    && s.nextSequence == |h| + 1 && s.recent == LastOf(h, c.recentLimit)
  }

  /** A run of the journal: a refused append leaves it alone, a crash keeps a prefix of the file. */
  function Run<J(!new)>(s: State<J>, events: seq<Event<J>>, c: Config, codec: PayloadCodec<J>): Option<State<J>>
    decreases |events|
  {
    if events == [] then Some(s)
    else match events[0]
      case Append(kind, payload) =>
        (match Appended(s, kind, payload, c, codec)
         case Failure(_) => Run(s, events[1..], c, codec)
         case Success(next) => Run(next, events[1..], c, codec))
      case CrashAndReopen(cut) =>
        var n := if cut < |s.file| then cut else |s.file|;
        match Opened(Some(s.file[..n]), c, codec)
        case None => None
        case Some(next) => Run(next, events[1..], c, codec)
  }

  /** The simple form of the journal: nothing but the list of its records. */
  ghost function RunHistory<J>(h: seq<Record<J>>, events: seq<Event<J>>, c: Config, codec: PayloadCodec<J>): seq<Record<J>>
    decreases |events|
  {
    if events == [] then h
    else match events[0]
      case Append(kind, payload) =>
        var fits := ValidKind(kind) && |codec.dump(payload)| <= c.maximumPayload
                    && |FileOf(h, c, codec)| + HEADER_SIZE + |kind| + |codec.dump(payload)| <= c.maximumFile;
        RunHistory(if fits then h + [Record(|h| + 1, kind, payload)] else h, events[1..], c, codec)
      case CrashAndReopen(cut) =>
        var size := |FileOf(h, c, codec)|;
        RunHistory(h[..WholeRecords(h, if cut < size then cut else size, c, codec)], events[1..], c, codec)
  }

  /** The crash at step i cuts into the file magic, or leaves a payload that replay refuses. */
  ghost predicate RefusedAt<J>(h: seq<Record<J>>, events: seq<Event<J>>, i: nat, c: Config, codec: PayloadCodec<J>)
    requires i < |events|
  {
    events[i].CrashAndReopen?
    && (events[i].cut < |FILE_MAGIC| || !All(RunHistory(h, events[..i + 1], c, codec), Nests(codec)))
  }

  lemma AppendKeepsConsistent<J>(s: State<J>, h: seq<Record<J>>, kind: seq<byte>, payload: J, c: Config, codec: PayloadCodec<J>)
    requires ValidConfig(c) && Consistent(s, h, c, codec)
    requires Appended(s, kind, payload, c, codec).Success?
    ensures Consistent(Appended(s, kind, payload, c, codec).value, h + [Record(|h| + 1, kind, payload)], c, codec)
  {
    hide FrameOf, LastOf, ValidKind, FrameLog.Frames;
    var record := Record(|h| + 1, kind, payload);
    FilesGrow(h, record, c, codec);
    FramesLength(h, c, codec);
    FrameNonempty(record, c, codec);
    LastOfLonger(h, record, c.recentLimit);
  }

  lemma FilesGrow<J>(h: seq<Record<J>>, record: Record<J>, c: Config, codec: PayloadCodec<J>)
    ensures FileOf(h + [record], c, codec) == FileOf(h, c, codec) + FrameOf(record, c.synchronize, codec)
  {
    hide FrameOf;
    var write := WriterOf(c, codec);
    FramesConcat(h, [record], write);
    assert FrameLog.Frames([record], write) == write(record) + [];
  }

  lemma LastOfLonger<T>(h: seq<T>, x: T, limit: nat)
    requires limit > 0
    ensures LastOf(LastOf(h, limit) + [x], limit) == LastOf(h + [x], limit)
  {
  }

  lemma CrashKeepsConsistent<J(!new)>(s: State<J>, h: seq<Record<J>>, n: nat, c: Config, codec: PayloadCodec<J>)
    requires ValidConfig(c) && Faithful(codec) && Consistent(s, h, c, codec) && n <= |s.file|
    requires Opened(Some(s.file[..n]), c, codec).Some?
    ensures Consistent(Opened(Some(s.file[..n]), c, codec).value, h[..WholeRecords(h, n, c, codec)], c, codec)
  {
    hide Opened, FrameOf, Writable, FileOf, Faithful;
    CrashRecovery(h, n, c, codec);
  }

  /** Journal refinement: over any run of appends and crashes the journal is the list of its records. The run
      goes through exactly when no crash cuts into the file magic and no payload nested too deep is replayed;
      then the file is the magic followed by the frames of records 1 to n, and the window holds the last of them. */
  lemma {:induction false} RunRefinesHistory<J(!new)>(s: State<J>, h: seq<Record<J>>, events: seq<Event<J>>,
                                                      c: Config, codec: PayloadCodec<J>)
    requires ValidConfig(c) && Faithful(codec) && Consistent(s, h, c, codec)
    ensures match Run(s, events, c, codec)
            case Some(t) => Consistent(t, RunHistory(h, events, c, codec), c, codec)
                            && forall i :: 0 <= i < |events| ==> !RefusedAt(h, events, i, c, codec)
            case None => exists i :: 0 <= i < |events| && RefusedAt(h, events, i, c, codec)
    decreases |events|
  {
    hide FrameOf, Opened, Appended, Consistent, Faithful, WholeRecords, Nests;
    if events == [] {
    } else {
      match events[0]
      case Append(kind, payload) =>
        AppendFits(s, h, kind, payload, c, codec);
        if Appended(s, kind, payload, c, codec).Success? {
          AppendKeepsConsistent(s, h, kind, payload, c, codec);
          var h' := h + [Record(|h| + 1, kind, payload)];
          RunRefinesHistory(Appended(s, kind, payload, c, codec).value, h', events[1..], c, codec);
          ShiftRefused(h, h', events, c, codec);
        } else {
          RunRefinesHistory(s, h, events[1..], c, codec);
          ShiftRefused(h, h, events, c, codec);
        }
      case CrashAndReopen(cut) =>
        FileOfConsistent(s, h, c, codec);
        var n := if cut < |s.file| then cut else |s.file|;
        var h' := h[..WholeRecords(h, n, c, codec)];
        CrashFate(s, h, n, c, codec);
        if Opened(Some(s.file[..n]), c, codec).Some? {
          CrashKeepsConsistent(s, h, n, c, codec);
          RunRefinesHistory(Opened(Some(s.file[..n]), c, codec).value, h', events[1..], c, codec);
          ShiftRefused(h, h', events, c, codec);
        } else {
          FirstHistory(h, events, c, codec);
          assert RefusedAt(h, events, 0, c, codec);
        }
    }
  }

  lemma AppendFits<J>(s: State<J>, h: seq<Record<J>>, kind: seq<byte>, payload: J, c: Config, codec: PayloadCodec<J>)
    requires Consistent(s, h, c, codec)
    ensures Appended(s, kind, payload, c, codec).Success? <==>
            ValidKind(kind) && |codec.dump(payload)| <= c.maximumPayload
            && |FileOf(h, c, codec)| + HEADER_SIZE + |kind| + |codec.dump(payload)| <= c.maximumFile
  {
    hide FrameOf, FileOf, History, ValidKind;
  }

  lemma FileOfConsistent<J>(s: State<J>, h: seq<Record<J>>, c: Config, codec: PayloadCodec<J>)
    requires Consistent(s, h, c, codec)
    ensures s.file == FileOf(h, c, codec)
  {
  }

  lemma CrashFate<J(!new)>(s: State<J>, h: seq<Record<J>>, n: nat, c: Config, codec: PayloadCodec<J>)
    requires ValidConfig(c) && Faithful(codec) && Consistent(s, h, c, codec) && n <= |s.file|
    ensures Opened(Some(s.file[..n]), c, codec).Some?
        <==> n >= |FILE_MAGIC| && All(h[..WholeRecords(h, n, c, codec)], Nests(codec))
    ensures |s.file| >= |FILE_MAGIC|
  {
    hide FrameOf, Opened, Writable, Faithful;
    CrashRecovery(h, n, c, codec);
  }

  lemma FirstHistory<J>(h: seq<Record<J>>, events: seq<Event<J>>, c: Config, codec: PayloadCodec<J>)
    requires events != [] && events[0].CrashAndReopen?
    ensures var size := |FileOf(h, c, codec)|;
      RunHistory(h, events[..0 + 1], c, codec)
      == h[..WholeRecords(h, if events[0].cut < size then events[0].cut else size, c, codec)]
  {
    hide WholeRecords, FileOf;
    assert events[..1][1..] == [];
  }

  /** The first step shifts the fate of all later ones. */
  lemma ShiftRefused<J>(h: seq<Record<J>>, h': seq<Record<J>>, events: seq<Event<J>>, c: Config, codec: PayloadCodec<J>)
    requires events != []
    requires forall j :: 0 < j <= |events| ==>
      RunHistory(h, events[..j], c, codec) == RunHistory(h', events[1..j], c, codec)
    ensures forall i :: 0 < i < |events| ==>
      RefusedAt(h, events, i, c, codec) == RefusedAt(h', events[1..], i - 1, c, codec)
    ensures (exists i :: 0 < i < |events| && RefusedAt(h, events, i, c, codec))
         == (exists i :: 0 <= i < |events[1..]| && RefusedAt(h', events[1..], i, c, codec))
  {
    hide RunHistory, Nests;
    forall i | 0 < i < |events| ensures RefusedAt(h, events, i, c, codec) == RefusedAt(h', events[1..], i - 1, c, codec) {
      assert events[1..][..i] == events[1..i + 1];
      assert events[i] == events[1..][i - 1];
    }
    if i :| 0 <= i < |events[1..]| && RefusedAt(h', events[1..], i, c, codec) {
      assert RefusedAt(h, events, i + 1, c, codec);
    }
  }

  /** A missing file starts the empty history. */
  lemma FreshJournal<J(!new)>(c: Config, codec: PayloadCodec<J>)
    requires ValidConfig(c)
    ensures Opened(None, c, codec).Some? && Consistent(Opened(None, c, codec).value, [], c, codec)
  {
    ReaderSized(c, codec);
    assert FILE_MAGIC[|FILE_MAGIC|..] == [];
  }

  /** The last k of the window are the last min(k, limit) of the history. */
  lemma RecentOfHistory<T>(h: seq<T>, limit: nat, k: nat)
    ensures LastOf(LastOf(h, limit), k) == LastOf(h, if k < limit then k else limit)
  {
  }
}
