/** A file as a log of self-delimiting frames: what replaying it yields, whole or cut anywhere. */
module FrameLog {
  import opened Bytes

  datatype Outcome<R> = AtEnd | Torn | Corrupt | Complete(record: R, size: nat)

  type Reader<!R> = (seq<byte>, nat) -> Outcome<R>
  type Writer<!R> = R -> seq<byte>

  /** A whole frame is nonempty and lies within the bytes it was read from. */
  ghost predicate Sized<R(!new)>(read: Reader<R>) {
    forall data, expected :: read(data, expected).Complete? ==> 0 < read(data, expected).size <= |data|
  }

  /** Reading against writing, for one record with number n: the whole frame reads back as the record when it
      is replayable and is refused otherwise, and every proper nonempty prefix of it is torn. */
  ghost predicate SelfDelimiting<R(!new)>(read: Reader<R>, write: Writer<R>, r: R, n: nat, replayable: bool) {
    && |write(r)| > 0
    && (forall rest :: read(write(r) + rest, n) == if replayable then Complete(r, |write(r)|) else Corrupt)
    && (forall torn :: [] < torn < write(r) ==> read(torn, n) == Torn)
  }

  ghost predicate AllSelfDelimiting<R(!new)>(read: Reader<R>, write: Writer<R>, h: seq<R>, first: nat, ok: R -> bool) {
    forall i :: 0 <= i < |h| ==> SelfDelimiting(read, write, h[i], first + i, ok(h[i]))
  }

  ghost predicate All<R>(h: seq<R>, ok: R -> bool) {
    forall i :: 0 <= i < |h| ==> ok(h[i])
  }

  datatype ReplayOutcome<R> = Refused | Replayed(records: seq<R>, complete: nat)

  /** Everything the replay loop makes of the bytes: the whole frames, and how many bytes they take;
      what is left over is a torn tail. */
  function Replay<R(!new)>(data: seq<byte>, expected: nat, read: Reader<R>): (o: ReplayOutcome<R>)
    requires Sized(read)
    ensures o.Replayed? ==> o.complete <= |data|
    decreases |data|
  {
    match read(data, expected)
    case AtEnd => Replayed([], 0)
    case Torn => Replayed([], 0)
    case Corrupt => Refused
    case Complete(record, size) => Joined([record], size, Replay(data[size..], expected + 1, read))
  }

  /** A replay that has already taken some frames and goes on with the rest. */
  function Joined<R>(records: seq<R>, taken: nat, rest: ReplayOutcome<R>): ReplayOutcome<R> {
    match rest
    case Refused => Refused
    case Replayed(more, complete) => Replayed(records + more, taken + complete)
  }

  lemma JoinedTwice<R>(a: seq<R>, n: nat, b: seq<R>, m: nat, rest: ReplayOutcome<R>)
    ensures Joined(a, n, Joined(b, m, rest)) == Joined(a + b, n + m, rest)
  {
    if rest.Replayed? {
      assert a + (b + rest.records) == a + b + rest.records;
    }
  }

  lemma JoinStep<R(!new)>(data: seq<byte>, records: seq<R>, taken: nat, expected: nat, read: Reader<R>)
    requires Sized(read) && taken <= |data| && read(data[taken..], expected).Complete?
    ensures var o := read(data[taken..], expected);
      && taken + o.size <= |data|
      && Joined(records, taken, Replay(data[taken..], expected, read))
         == Joined(records + [o.record], taken + o.size, Replay(data[taken + o.size..], expected + 1, read))
  {
    var o := read(data[taken..], expected);
    assert data[taken..][o.size..] == data[taken + o.size..];
    JoinedTwice(records, taken, [o.record], o.size, Replay(data[taken + o.size..], expected + 1, read));
  }

  lemma JoinStart<R(!new)>(data: seq<byte>, expected: nat, read: Reader<R>)
    requires Sized(read)
    ensures Replay(data, expected, read) == Joined([], 0, Replay(data[0..], expected, read))
  {
    assert data[0..] == data;
    assert forall more: seq<R> :: [] + more == more;
  }

  lemma JoinEnd<R(!new)>(data: seq<byte>, records: seq<R>, taken: nat, expected: nat, read: Reader<R>)
    requires Sized(read) && taken <= |data| && !read(data[taken..], expected).Complete?
    ensures Joined(records, taken, Replay(data[taken..], expected, read))
         == if read(data[taken..], expected).Corrupt? then Refused else Replayed(records, taken)
  {
    assert records + [] == records;
  }

  /** The frames of a history, in order. */
  function Frames<R>(h: seq<R>, write: Writer<R>): seq<byte> {
    if h == [] then [] else write(h[0]) + Frames(h[1..], write)
  }

  lemma {:induction false} FramesConcat<R>(a: seq<R>, b: seq<R>, write: Writer<R>)
    ensures Frames(a + b, write) == Frames(a, write) + Frames(b, write)
    decreases |a|
  {
    if a == [] {
      assert a + b == b;
    } else {
      assert (a + b)[1..] == a[1..] + b;
      FramesConcat(a[1..], b, write);
    }
  }

  lemma TailDelimited<R(!new)>(h: seq<R>, first: nat, read: Reader<R>, write: Writer<R>, ok: R -> bool)
    requires h != [] && AllSelfDelimiting(read, write, h, first, ok)
    ensures SelfDelimiting(read, write, h[0], first, ok(h[0]))
    ensures AllSelfDelimiting(read, write, h[1..], first + 1, ok)
  {
    hide SelfDelimiting;
    assert SelfDelimiting(read, write, h[0], first + 0, ok(h[0]));
    forall i | 0 <= i < |h[1..]| ensures SelfDelimiting(read, write, h[1..][i], first + 1 + i, ok(h[1..][i])) {
      assert h[1..][i] == h[i + 1];
      assert SelfDelimiting(read, write, h[i + 1], first + (i + 1), ok(h[i + 1]));
    }
  }

  lemma AllSplit<R>(h: seq<R>, ok: R -> bool)
    requires h != []
    ensures All(h, ok) <==> ok(h[0]) && All(h[1..], ok)
  {
    assert forall i :: 0 < i < |h| ==> h[i] == h[1..][i - 1];
  }

  /** Replaying one frame followed by other bytes. */
  lemma ReplayFrame<R(!new)>(r: R, n: nat, more: seq<byte>, read: Reader<R>, write: Writer<R>, replayable: bool)
    requires Sized(read) && SelfDelimiting(read, write, r, n, replayable)
    ensures Replay(write(r) + more, n, read)
         == if replayable then Joined([r], |write(r)|, Replay(more, n + 1, read)) else Refused
  {
    hide Joined;
    assert (write(r) + more)[|write(r)|..] == more;
  }

  /** Replaying the frames of a history followed by other bytes: the history if all of it is replayable,
      joined with the replay of those bytes; otherwise a refusal, whatever follows. */
  lemma {:induction false} ReplayFrames<R(!new)>(h: seq<R>, first: nat, rest: seq<byte>,
                                                 read: Reader<R>, write: Writer<R>, ok: R -> bool)
    requires Sized(read) && AllSelfDelimiting(read, write, h, first, ok)
    ensures Replay(Frames(h, write) + rest, first, read)
         == if All(h, ok) then Joined(h, |Frames(h, write)|, Replay(rest, first + |h|, read)) else Refused
    decreases |h|
  {
    if h == [] {
      assert Frames(h, write) + rest == rest;
      assert forall more: seq<R> :: h + more == more;
    } else {
      hide SelfDelimiting, AllSelfDelimiting, All, Sized, Replay;
      var frame, tail := write(h[0]), Frames(h[1..], write);
      assert Frames(h, write) + rest == frame + (tail + rest);
      TailDelimited(h, first, read, write, ok);
      ReplayFrame(h[0], first, tail + rest, read, write, ok(h[0]));
      ReplayFrames(h[1..], first + 1, rest, read, write, ok);
      AllSplit(h, ok);
      JoinedTwice([h[0]], |frame|, h[1..], |tail|, Replay(rest, first + |h|, read));
      assert [h[0]] + h[1..] == h;
    }
  }

  /** How many whole frames end within the first n bytes. */
  function WholeFrames<R>(h: seq<R>, n: nat, write: Writer<R>): (k: nat)
    ensures k <= |h|
    decreases |h|
  {
    if h == [] || n < |write(h[0])| then 0 else 1 + WholeFrames(h[1..], n - |write(h[0])|, write)
  }

  /** A cut splits the frames into the whole ones and a proper prefix of the next one. */
  lemma {:induction false} CutFrames<R>(h: seq<R>, n: nat, write: Writer<R>) returns (torn: seq<byte>)
    requires n <= |Frames(h, write)|
    ensures var k := WholeFrames(h, n, write);
      && Frames(h, write)[..n] == Frames(h[..k], write) + torn
      && (if k < |h| then torn < write(h[k]) else torn == [])
    decreases |h|
  {
    if h == [] {
      torn := [];
    } else {
      var frame, rest := write(h[0]), Frames(h[1..], write);
      if n < |frame| {
        torn := frame[..n];
        assert h[..0] == [];
        assert Frames(h, write)[..n] == frame[..n];
      } else {
        torn := CutFrames(h[1..], n - |frame|, write);
        var k := WholeFrames(h, n, write);
        assert h[..k][1..] == h[1..][..k - 1];
        assert Frames(h, write)[..n] == frame + rest[..n - |frame|];
        if k < |h| { assert h[1..][k - 1] == h[k]; }
      }
    }
  }

  /** Replaying the frames of a history cut after n bytes yields exactly the records whose frames end by then. */
  lemma ReplayCut<R(!new)>(h: seq<R>, n: nat, first: nat, read: Reader<R>, write: Writer<R>, ok: R -> bool)
    requires Sized(read) && AllSelfDelimiting(read, write, h, first, ok)
    requires forall expected :: read([], expected) == AtEnd
    requires n <= |Frames(h, write)|
    ensures var k := WholeFrames(h, n, write);
      && |Frames(h[..k], write)| <= n
      && Frames(h, write)[..|Frames(h[..k], write)|] == Frames(h[..k], write)
      && Replay(Frames(h, write)[..n], first, read)
         == if All(h[..k], ok) then Replayed(h[..k], |Frames(h[..k], write)|) else Refused
  {
    var k := WholeFrames(h, n, write);
    var torn := CutFrames(h, n, write);
    var whole := Frames(h[..k], write);
    forall i | 0 <= i < k ensures SelfDelimiting(read, write, h[..k][i], first + i, ok(h[..k][i])) {
      assert SelfDelimiting(read, write, h[i], first + i, ok(h[i]));
    }
    ReplayFrames(h[..k], first, torn, read, write, ok);
    if torn != [] {
      assert SelfDelimiting(read, write, h[k], first + k, ok(h[k]));
      assert [] < torn;
    }
    assert Replay(torn, first + k, read) == Replayed([], 0);
    assert h[..k] + [] == h[..k];
    assert Frames(h, write)[..|whole|] == Frames(h, write)[..n][..|whole|] == whole;
  }
}
