/** What replay makes of a damaged journal: which damage is always refused, and which is not seen. */
module JournalCorruption {
  import opened Bytes
  import opened Crc32c
  import opened FrameLog
  import opened Frames
  import opened OperationalStore
  import opened Wrappers

  /** Replay of a history followed by other bytes hinges on how those bytes read. */
  lemma OpenedAfter<J(!new)>(h: seq<Record<J>>, data: seq<byte>, c: Config, codec: PayloadCodec<J>)
    requires ValidConfig(c) && Faithful(codec) && History(h, c, codec)
    requires |FileOf(h, c, codec) + data| <= c.maximumFile
    requires var o := ReadFrame(data, |h| + 1, c.maximumPayload, codec); o.Corrupt? || o.Torn?
    ensures Opened(Some(FileOf(h, c, codec) + data), c, codec)
         == if All(h, Nests(codec)) && ReadFrame(data, |h| + 1, c.maximumPayload, codec).Torn?
            then Some(State(FileOf(h, c, codec), |h| + 1, LastOf(h, c.recentLimit), |data|)) else None
  {
    hide ReadFrame, FrameOf, Writable, Faithful, AllSelfDelimiting, All, FrameLog.Frames, Sized;
    var read, write := ReaderOf(c, codec), WriterOf(c, codec);
    var frames := FrameLog.Frames(h, write);
    var file := FileOf(h, c, codec) + data;
    ReaderSized(c, codec);
    FramesDelimited(h, c, codec);
    ReplayFrames(h, 1, data, read, write, Nests(codec));
    assert read(data, |h| + 1) == ReadFrame(data, |h| + 1, c.maximumPayload, codec);
    assert file[|FILE_MAGIC|..] == frames + data;
    assert file[..|FILE_MAGIC|] == FILE_MAGIC;
    assert h + [] == h;
    assert file[..|FileOf(h, c, codec)|] == FileOf(h, c, codec);
  }

  /** The checksum of a frame is one update over kind and payload together. */
  lemma BodyCrc(sequence: nat, kind: seq<byte>, payload: seq<byte>)
    ensures FrameCrc(sequence, kind, payload)
         == !Update(Update(0xffff_ffff, LittleEndian(sequence, 8)), kind + payload)
  {
    UpdateConcat(Update(0xffff_ffff, LittleEndian(sequence, 8)), kind, payload);
  }

  lemma ComplementInjective(x: bv32, y: bv32)
    requires !x == !y
    ensures x == y
  {
  }

  lemma BurstChangesCrc(sequence: nat, kind: seq<byte>, payload: seq<byte>, kind': seq<byte>, payload': seq<byte>,
                        before: seq<byte>, a: seq<byte>, b: seq<byte>, after: seq<byte>)
    requires |a| == |b| <= 4 && a != b
    requires kind + payload == before + a + after
    requires kind' + payload' == before + b + after
    ensures FrameCrc(sequence, kind, payload) != FrameCrc(sequence, kind', payload')
  {
    var start := Update(0xffff_ffff, LittleEndian(sequence, 8));
    BodyCrc(sequence, kind, payload);
    BodyCrc(sequence, kind', payload');
    BurstDetected(start, before, a, b, after);
    if FrameCrc(sequence, kind, payload) == FrameCrc(sequence, kind', payload') {
      ComplementInjective(Update(start, before + a + after), Update(start, before + b + after));
    }
  }

  /** A frame whose kind and payload were altered within a window of four bytes reads as corrupt. */
  lemma BurstReadsCorrupt<J>(r: Record<J>, before: seq<byte>, a: seq<byte>, b: seq<byte>, after: seq<byte>,
                             rest: seq<byte>, synchronize: bool, maximumPayload: nat, codec: PayloadCodec<J>)
    requires Writable(r, maximumPayload, codec)
    requires |a| == |b| <= 4 && a != b && r.kind + codec.dump(r.payload) == before + a + after
    ensures var header := EncodeHeader(FrameHeader(r.sequence, r.kind, codec.dump(r.payload), synchronize));
      ReadFrame(header + (before + b + after) + rest, r.sequence, maximumPayload, codec) == Corrupt
  {
    hide EncodeHeader, DecodeHeader, FrameCrc;
    var payload := codec.dump(r.payload);
    var h := FrameHeader(r.sequence, r.kind, payload, synchronize);
    var body := before + b + after;
    var kind', payload' := body[..|r.kind|], body[|r.kind|..];
    assert |body| == |r.kind| + |payload|;
    HeaderRoundTrip(h, []);
    assert (EncodeHeader(h) + [])[..HEADER_SIZE] == EncodeHeader(h);
    ReadParts(EncodeHeader(h), kind', payload', rest, r.sequence, maximumPayload, codec);
    assert EncodeHeader(h) + kind' + payload' + rest == EncodeHeader(h) + body + rest;
    assert kind' + payload' == body;
    BurstChangesCrc(r.sequence, r.kind, payload, kind', payload', before, a, b, after);
  }

  /** Corruption is never replayed: alter any window of up to four bytes inside the kind and payload of any
      frame, whatever follows it, and the journal refuses to open. */
  lemma BurstRefused<J(!new)>(h: seq<Record<J>>, r: Record<J>, before: seq<byte>, a: seq<byte>, b: seq<byte>,
                              after: seq<byte>, rest: seq<byte>, c: Config, codec: PayloadCodec<J>)
    requires ValidConfig(c) && Faithful(codec) && History(h + [r], c, codec)
    requires |a| == |b| <= 4 && a != b && r.kind + codec.dump(r.payload) == before + a + after
    ensures var header := EncodeHeader(FrameHeader(r.sequence, r.kind, codec.dump(r.payload), c.synchronize));
      Opened(Some(FileOf(h, c, codec) + (header + (before + b + after) + rest)), c, codec) == None
  {
    hide ReadFrame, EncodeHeader, FrameHeader, Writable, Faithful, FileOf;
    var header := EncodeHeader(FrameHeader(r.sequence, r.kind, codec.dump(r.payload), c.synchronize));
    var file := FileOf(h, c, codec) + (header + (before + b + after) + rest);
    if |file| <= c.maximumFile {
      forall i | 0 <= i < |h| ensures h[i].sequence == i + 1 && Writable(h[i], c.maximumPayload, codec) {
        assert (h + [r])[i] == h[i];
      }
      assert (h + [r])[|h|] == r;
      BurstReadsCorrupt(r, before, a, b, after, rest, c.synchronize, c.maximumPayload, codec);
      OpenedAfter(h, header + (before + b + after) + rest, c, codec);
    }
  }

  /** The lengths are outside the checksum: a payload length that grew, in the last frame, reads as a torn
      tail, so the journal opens without that record and cuts it off. */
  lemma EnlargedLengthDropsRecord<J(!new)>(h: seq<Record<J>>, r: Record<J>, length: nat, c: Config, codec: PayloadCodec<J>)
    requires ValidConfig(c) && Faithful(codec) && History(h + [r], c, codec) && All(h, Nests(codec))
    requires |FileOf(h, c, codec)| + |FrameOf(r, c.synchronize, codec)| <= c.maximumFile
    requires |codec.dump(r.payload)| < length <= c.maximumPayload
    ensures var payload := codec.dump(r.payload);
      var header := FrameHeader(r.sequence, r.kind, payload, c.synchronize).(payloadSize := length);
      var damaged := EncodeHeader(header) + r.kind + payload;
      Opened(Some(FileOf(h, c, codec) + damaged), c, codec)
      == Some(State(FileOf(h, c, codec), |h| + 1, LastOf(h, c.recentLimit), |damaged|))
  {
    hide EncodeHeader, DecodeHeader, FrameCrc, FileOf, Faithful;
    var payload := codec.dump(r.payload);
    var header := FrameHeader(r.sequence, r.kind, payload, c.synchronize).(payloadSize := length);
    var damaged := EncodeHeader(header) + r.kind + payload;
    forall i | 0 <= i < |h| ensures h[i].sequence == i + 1 && Writable(h[i], c.maximumPayload, codec) {
      assert (h + [r])[i] == h[i];
    }
    assert (h + [r])[|h|] == r;
    HeaderRoundTrip(header, r.kind + payload);
    assert EncodeHeader(header) + (r.kind + payload) == damaged;
    assert ReadFrame(damaged, r.sequence, c.maximumPayload, codec) == Torn;
    FrameNonempty(r, c, codec);
    OpenedAfter(h, damaged, c, codec);
  }

  /** The synchronization flag is outside the checksum: either value reads back as the same record. */
  lemma SyncFlagUnchecked<J(!new)>(r: Record<J>, rest: seq<byte>, c: Config, codec: PayloadCodec<J>)
    requires Faithful(codec) && Writable(r, c.maximumPayload, codec)
    ensures ReadFrame(FrameOf(r, true, codec) + rest, r.sequence, c.maximumPayload, codec)
         == ReadFrame(FrameOf(r, false, codec) + rest, r.sequence, c.maximumPayload, codec)
  {
    hide ReadFrame, FrameOf;
    ReadWrittenFrame(r, true, rest, c.maximumPayload, codec);
    ReadWrittenFrame(r, false, rest, c.maximumPayload, codec);
    FrameNonempty(r, c.(synchronize := true), codec);
    FrameNonempty(r, c.(synchronize := false), codec);
  }
}
