/**
 The read loop of http_file_download_thread_fn on its own: what it writes, counts
 and reports for a sequence of read() results, how far that depends on the way the
 stream is cut into reads, and that the step machine of `Downloaders` runs it.
 */
module Transfer {
  import opened Wrappers
  import opened Fsm
  import opened Downloaders

  /** One read(): some bytes (none at end of stream), or an error. */
  datatype Read = Data(bytes: seq<byte>) | Failed

  datatype Received = Received(bytes: nat, disk: Disk, event: Event)

  /** The loop, from a counter, a file position and the size to reach. Past the
      last given read the stream is at its end. */
  function Loop(bytes: nat, fpos: nat, disk: Disk, expected: int, rs: seq<Read>): Received
    decreases rs
  {
    if rs == [] || rs[0] == Data([]) then
      Received(bytes, disk, if bytes == expected then Finished else ErrorRaised)
    else if rs[0].Failed? then
      Received(bytes, disk, ErrorRaised)
    else
      var data := rs[0].bytes;
      var bytes', disk' := bytes + |data|, Put(disk, fpos, data);
      if bytes' == expected then Received(bytes', disk', Finished)
      else Loop(bytes', fpos + |data|, disk', expected, rs[1..])
  }

  /** The whole body: what came behind the header in the first read, then the loop. */
  function Body(low: nat, disk: Disk, expected: int, first: seq<byte>, rs: seq<Read>): Received {
    Loop(|first|, low + |first|, Put(disk, low, first), expected, rs)
  }

  /** The bytes delivered before the stream ends or breaks. */
  function Stream(rs: seq<Read>): seq<byte> {
    if rs == [] || rs[0].Failed? || rs[0] == Data([]) then []
    else rs[0].bytes + Stream(rs[1..])
  }

  /** Whether the stream breaks before it ends. */
  predicate Broken(rs: seq<Read>) {
    rs != [] && (rs[0].Failed? || (rs[0] != Data([]) && Broken(rs[1..])))
  }

  /** Reads into a buffer of `b` bytes. */
  predicate Fits(rs: seq<Read>, b: nat) {
    forall i | 0 <= i < |rs| && rs[i].Data? :: |rs[i].bytes| <= b
  }

  /** `data`, delivered in full buffers and a last shorter one. */
  function Cut(data: seq<byte>, b: nat): seq<Read>
    requires b > 0
  {
    if data == [] then []
    else if |data| <= b then [Data(data)]
    else [Data(data[..b])] + Cut(data[b..], b)
  }

  lemma StreamStep(data: seq<byte>, tail: seq<Read>)
    requires data != []
    ensures Stream([Data(data)] + tail) == data + Stream(tail)
    ensures Broken([Data(data)] + tail) == Broken(tail)
  {
    assert ([Data(data)] + tail)[1..] == tail;
  }

  lemma FitsStep(data: seq<byte>, tail: seq<Read>, b: nat)
    requires |data| <= b && Fits(tail, b)
    ensures Fits([Data(data)] + tail, b)
  {
  }

  lemma LoopStep(bytes: nat, fpos: nat, disk: Disk, expected: int, data: seq<byte>, tail: seq<Read>)
    requires data != [] && bytes + |data| != expected
    ensures Loop(bytes, fpos, disk, expected, [Data(data)] + tail)
            == Loop(bytes + |data|, fpos + |data|, Put(disk, fpos, data), expected, tail)
  {
    assert ([Data(data)] + tail)[1..] == tail;
  }

  lemma CutStep(data: seq<byte>, b: nat, rest: seq<Read>)
    requires b > 0
    ensures data == [] ==> Cut(data, b) + rest == rest
    ensures 0 < |data| <= b ==> Cut(data, b) + rest == [Data(data)] + rest
    ensures |data| > b ==> Cut(data, b) + rest == [Data(data[..b])] + (Cut(data[b..], b) + rest)
  {
  }

  lemma SplitJoin(data: seq<byte>, b: nat, rest: seq<byte>)
    requires b <= |data|
    ensures data[..b] + (data[b..] + rest) == data + rest
  {
  }

  /** A cut stream, and whatever comes behind it. */
  lemma {:induction false} CutThen(data: seq<byte>, b: nat, rest: seq<Read>)
    requires b > 0
    ensures Stream(Cut(data, b) + rest) == data + Stream(rest)
    ensures Broken(Cut(data, b) + rest) == Broken(rest)
    decreases |data|
  {
    CutStep(data, b, rest);
    if data == [] {
    } else if |data| <= b {
      StreamStep(data, rest);
    } else {
      CutThen(data[b..], b, rest);
      StreamStep(data[..b], Cut(data[b..], b) + rest);
      SplitJoin(data, b, Stream(rest));
    }
  }

  lemma {:induction false} CutThenFits(data: seq<byte>, b: nat, rest: seq<Read>)
    requires b > 0 && Fits(rest, b)
    ensures Fits(Cut(data, b) + rest, b)
    decreases |data|
  {
    CutStep(data, b, rest);
    if data == [] {
    } else if |data| <= b {
      FitsStep(data, rest, b);
    } else {
      CutThenFits(data[b..], b, rest);
      FitsStep(data[..b], Cut(data[b..], b) + rest, b);
    }
  }

  lemma CutAlone(data: seq<byte>, b: nat)
    requires b > 0
    ensures Stream(Cut(data, b)) == data && !Broken(Cut(data, b)) && Fits(Cut(data, b), b)
  {
    CutThen(data, b, []);
    CutThenFits(data, b, []);
    assert Cut(data, b) + [] == Cut(data, b);
  }

  /** The byte at `i` after a write. */
  function ByteAfter(s: seq<byte>, pos: nat, data: seq<byte>, i: nat): byte {
    if pos <= i < pos + |data| then data[i - pos] else if i < |s| then s[i] else 0
  }

  lemma OverwriteAt(s: seq<byte>, pos: nat, data: seq<byte>)
    ensures |Overwrite(s, pos, data)| == if data == [] || pos + |data| <= |s| then |s| else pos + |data|
    ensures forall i: nat | i < |Overwrite(s, pos, data)| :: Overwrite(s, pos, data)[i] == ByteAfter(s, pos, data, i)
  {
  }

  lemma BytesAfterTwice(s: seq<byte>, t: seq<byte>, pos: nat, a: seq<byte>, b: seq<byte>, i: nat)
    requires forall i: nat | i < |t| :: t[i] == ByteAfter(s, pos, a, i)
    requires |t| == if a == [] || pos + |a| <= |s| then |s| else pos + |a|
    ensures ByteAfter(t, pos + |a|, b, i) == ByteAfter(s, pos, a + b, i)
  {
  }

  /** Two adjacent writes are one. */
  lemma OverwriteTwice(s: seq<byte>, pos: nat, a: seq<byte>, b: seq<byte>)
    ensures Overwrite(Overwrite(s, pos, a), pos + |a|, b) == Overwrite(s, pos, a + b)
  {
    var t := Overwrite(s, pos, a);
    OverwriteAt(s, pos, a);
    OverwriteAt(t, pos + |a|, b);
    OverwriteAt(s, pos, a + b);
    forall i: nat | i < |Overwrite(s, pos, a + b)|
      ensures Overwrite(t, pos + |a|, b)[i] == Overwrite(s, pos, a + b)[i]
    {
      BytesAfterTwice(s, t, pos, a, b, i);
    }
  }

  lemma OverwriteInside(s: seq<byte>, pos: nat, data: seq<byte>)
    requires pos + |data| <= |s|
    ensures var r := Overwrite(s, pos, data);
            && |r| == |s|
            && (forall p | 0 <= p < |s| :: r[p] == if pos <= p < pos + |data| then data[p - pos] else s[p])
  {
  }

  lemma PutTwice(disk: Disk, pos: nat, a: seq<byte>, b: seq<byte>)
    ensures Put(Put(disk, pos, a), pos + |a|, b) == Put(disk, pos, a + b)
  {
    if disk.Some? {
      OverwriteTwice(disk.value, pos, a, b);
    }
  }

  /** The loop depends on the stream alone when it is no longer than expected, but
      for one case: a stream that breaks right after its last byte still finishes
      if that byte came through the loop. */
  lemma {:induction false} LoopOnStream(bytes: nat, fpos: nat, disk: Disk, expected: int, rs: seq<Read>)
    requires bytes + |Stream(rs)| <= expected
    ensures var s := Stream(rs);
            Loop(bytes, fpos, disk, expected, rs) ==
            Received(bytes + |s|, Put(disk, fpos, s),
                     if bytes + |s| == expected && (!Broken(rs) || s != []) then Finished else ErrorRaised)
    decreases rs
  {
    if rs == [] || rs[0].Failed? || rs[0] == Data([]) {
      PutNothing(disk, fpos);
    } else {
      var data := rs[0].bytes;
      var rest := Stream(rs[1..]);
      if bytes + |data| == expected {
        assert rest == [];
        assert data + rest == data;
      } else {
        LoopOnStream(bytes + |data|, fpos + |data|, Put(disk, fpos, data), expected, rs[1..]);
        PutTwice(disk, fpos, data, rest);
      }
    }
  }

  lemma PutNothing(disk: Disk, pos: nat)
    ensures Put(disk, pos, []) == disk
  {
  }

  /** Read-fragmentation independence: for every way the stream is cut into reads,
      the file, the counter and the event are those of the stream. */
  lemma BodyOnStream(low: nat, disk: Disk, expected: int, first: seq<byte>, rs: seq<Read>)
    requires |first| + |Stream(rs)| <= expected
    ensures var s := first + Stream(rs);
            Body(low, disk, expected, first, rs) ==
            Received(|s|, Put(disk, low, s),
                     if |s| == expected && (!Broken(rs) || |first| < expected) then Finished else ErrorRaised)
  {
    LoopOnStream(|first|, low + |first|, Put(disk, low, first), expected, rs);
    PutTwice(disk, low, first, Stream(rs));
  }

  /** Same stream, same outcome, however it is cut into reads of at most `b` bytes. */
  ghost predicate CutsAgree(stream: seq<byte>, expected: int, b: nat) {
    forall first1, rs1, first2, rs2, low: nat, disk
      {:trigger Body(low, disk, expected, first1, rs1), Body(low, disk, expected, first2, rs2)} ::
      CutOf(stream, b, first1, rs1) && CutOf(stream, b, first2, rs2)
      ==> Body(low, disk, expected, first1, rs1) == Body(low, disk, expected, first2, rs2)
  }

  /** What the first read left behind the header, and the reads after it. */
  predicate CutOf(stream: seq<byte>, b: nat, first: seq<byte>, rs: seq<Read>) {
    first + Stream(rs) == stream && !Broken(rs) && |first| <= b && Fits(rs, b)
  }

  /** A stream that ends in order is reported alike for every cut if and only if it
      is no longer than expected, or nothing was expected: a longer one finishes
      exactly when a cut happens to fall on the expected size. */
  lemma CutsAgreeIff(stream: seq<byte>, expected: int, b: nat)
    requires b >= 2
    ensures CutsAgree(stream, expected, b) <==> |stream| <= expected || expected <= 0
  {
    if |stream| <= expected || expected <= 0 {
      forall first1, rs1, first2, rs2, low: nat, disk
        {:trigger Body(low, disk, expected, first1, rs1), Body(low, disk, expected, first2, rs2)} |
        CutOf(stream, b, first1, rs1) && CutOf(stream, b, first2, rs2)
        ensures Body(low, disk, expected, first1, rs1) == Body(low, disk, expected, first2, rs2)
      {
        if |stream| <= expected {
          BodyOnStream(low, disk, expected, first1, rs1);
          BodyOnStream(low, disk, expected, first2, rs2);
        } else {
          BodyPastEnd(low, disk, expected, first1, rs1);
          BodyPastEnd(low, disk, expected, first2, rs2);
        }
      }
    } else {
      var hit := CutAt(stream, expected, b);
      var jump := CutAcross(stream, expected, b);
      assert Body(0, None, expected, [], hit).event != Body(0, None, expected, [], jump).event;
    }
  }

  /** Reads that stop exactly behind the expected bytes. */
  lemma CutAt(stream: seq<byte>, expected: int, b: nat) returns (rs: seq<Read>)
    requires 0 < expected < |stream| && b > 0
    ensures CutOf(stream, b, [], rs)
    ensures Body(0, None, expected, [], rs).event == Finished
  {
    var rest := Cut(stream[expected..], b);
    rs := Cut(stream[..expected], b) + rest;
    CutAlone(stream[expected..], b);
    CutThen(stream[..expected], b, rest);
    CutThenFits(stream[..expected], b, rest);
    assert stream[..expected] + stream[expected..] == stream;
    assert [] + Stream(rs) == stream;
    LoopFills(0, 0, Put(None, 0, []), expected, stream[..expected], b, rest);
  }

  /** Reads of which one crosses the expected size. */
  lemma CutAcross(stream: seq<byte>, expected: int, b: nat) returns (rs: seq<Read>)
    requires 0 < expected < |stream| && b >= 2
    ensures CutOf(stream, b, [], rs)
    ensures Body(0, None, expected, [], rs).event == ErrorRaised
  {
    var before, two, behind := stream[..expected - 1], stream[expected - 1..expected + 1], stream[expected + 1..];
    assert before + (two + behind) == stream;
    rs := CutInThree(before, two, behind, b);
    LoopMisses(0, 0, Put(None, 0, []), expected, before, b, two, Cut(behind, b));
  }

  lemma CutInThree(before: seq<byte>, two: seq<byte>, behind: seq<byte>, b: nat) returns (rs: seq<Read>)
    requires 0 < |two| <= b
    ensures rs == Cut(before, b) + ([Data(two)] + Cut(behind, b))
    ensures CutOf(before + (two + behind), b, [], rs)
  {
    var rest := [Data(two)] + Cut(behind, b);
    rs := Cut(before, b) + rest;
    CutAlone(behind, b);
    StreamStep(two, Cut(behind, b));
    FitsStep(two, Cut(behind, b), b);
    CutThen(before, b, rest);
    CutThenFits(before, b, rest);
    assert [] + Stream(rs) == Stream(rs);
  }

  lemma LoopJumps(bytes: nat, fpos: nat, disk: Disk, expected: int, data: seq<byte>, tail: seq<Read>)
    requires data != [] && bytes + |data| > expected
    ensures Loop(bytes, fpos, disk, expected, [Data(data)] + tail).event == ErrorRaised
  {
    LoopStep(bytes, fpos, disk, expected, data, tail);
    LoopBeyond(bytes + |data|, fpos + |data|, Put(disk, fpos, data), expected, tail);
  }

  /** Reads that stay short of the expected size, and then one that jumps over it. */
  lemma {:induction false} LoopMisses(bytes: nat, fpos: nat, disk: Disk, expected: int,
                                      data: seq<byte>, b: nat, two: seq<byte>, tail: seq<Read>)
    requires b > 0 && bytes + |data| < expected < bytes + |data| + |two|
    ensures Loop(bytes, fpos, disk, expected, Cut(data, b) + ([Data(two)] + tail)).event == ErrorRaised
    decreases |data|
  {
    var rest := [Data(two)] + tail;
    CutStep(data, b, rest);
    if data == [] {
      LoopJumps(bytes, fpos, disk, expected, two, tail);
    } else if |data| <= b {
      LoopStep(bytes, fpos, disk, expected, data, rest);
      LoopJumps(bytes + |data|, fpos + |data|, Put(disk, fpos, data), expected, two, tail);
    } else {
      LoopStep(bytes, fpos, disk, expected, data[..b], Cut(data[b..], b) + rest);
      LoopMisses(bytes + b, fpos + b, Put(disk, fpos, data[..b]), expected, data[b..], b, two, tail);
    }
  }

  /** Reads that reach the expected size exactly end the loop, whatever is behind them. */
  lemma {:induction false} LoopFills(bytes: nat, fpos: nat, disk: Disk, expected: int,
                                     data: seq<byte>, b: nat, rest: seq<Read>)
    requires b > 0 && data != [] && bytes + |data| == expected
    ensures Loop(bytes, fpos, disk, expected, Cut(data, b) + rest).event == Finished
    decreases |data|
  {
    CutStep(data, b, rest);
    if |data| > b {
      LoopStep(bytes, fpos, disk, expected, data[..b], Cut(data[b..], b) + rest);
      LoopFills(bytes + b, fpos + b, Put(disk, fpos, data[..b]), expected, data[b..], b, rest);
    }
  }

  /** Once past the expected size the loop never comes back. */
  lemma {:induction false} LoopBeyond(bytes: nat, fpos: nat, disk: Disk, expected: int, rs: seq<Read>)
    requires bytes > expected
    ensures Loop(bytes, fpos, disk, expected, rs).event == ErrorRaised
    decreases rs
  {
    if rs != [] && rs[0].Data? && rs[0].bytes != [] {
      var data := rs[0].bytes;
      LoopBeyond(bytes + |data|, fpos + |data|, Put(disk, fpos, data), expected, rs[1..]);
    }
  }

  /** With nothing expected, every byte overshoots and the loop runs to the end. */
  lemma {:induction false} LoopPastEnd(bytes: nat, fpos: nat, disk: Disk, expected: int, rs: seq<Read>)
    requires expected <= 0 && (bytes > 0 || Stream(rs) != [] || expected < 0)
    requires !Broken(rs)
    ensures Loop(bytes, fpos, disk, expected, rs) ==
            Received(bytes + |Stream(rs)|, Put(disk, fpos, Stream(rs)), ErrorRaised)
    decreases rs
  {
    if rs == [] || rs[0] == Data([]) {
      PutNothing(disk, fpos);
    } else {
      var data := rs[0].bytes;
      LoopPastEnd(bytes + |data|, fpos + |data|, Put(disk, fpos, data), expected, rs[1..]);
      PutTwice(disk, fpos, data, Stream(rs[1..]));
    }
  }

  lemma BodyPastEnd(low: nat, disk: Disk, expected: int, first: seq<byte>, rs: seq<Read>)
    requires expected <= 0 && (first + Stream(rs) != [] || expected < 0) && !Broken(rs)
    ensures var s := first + Stream(rs);
            Body(low, disk, expected, first, rs) == Received(|s|, Put(disk, low, s), ErrorRaised)
  {
    LoopPastEnd(|first|, low + |first|, Put(disk, low, first), expected, rs);
    PutTwice(disk, low, first, Stream(rs));
  }

  // ---------- the step machine runs this loop ----------

  /** What the environment answers the body thread while it consumes `reads`. */
  function Script(bytes: nat, expected: int, rs: seq<Read>): seq<Label>
    decreases rs
  {
    if rs == [] || rs[0] == Data([]) then [DownloaderStep(Bytes([]))]
    else if rs[0].Failed? then [DownloaderStep(ReadFail)]
    else
      [DownloaderStep(Bytes(rs[0].bytes)), DownloaderStep(Proceed), DownloaderStep(Proceed)]
      + (if bytes + |rs[0].bytes| == expected then []
         else Script(bytes + |rs[0].bytes|, expected, rs[1..]))
  }

  function Standing(w: World, t: Worker): World {
    With(w, w.d.fd.(downloader := Some(t)))
  }

  lemma ReadsData(w: World, expected: int, fpos: nat, got: nat, data: seq<byte>)
    requires w.d.fault == NoFault && data != []
    requires w.d.fd.downloader == Some(BodyRead(expected, fpos, got))
    ensures Step(false, w, DownloaderStep(Bytes(data)))
            == Standing(w, BodyPut(expected, fpos, got + |data|, data, false))
  {
    DownloaderMoves(false, w, BodyRead(expected, fpos, got), Bytes(data));
  }

  lemma PutsData(w: World, expected: int, fpos: nat, got: nat, data: seq<byte>, first: bool)
    requires w.d.fault == NoFault
    requires w.d.fd.downloader == Some(BodyPut(expected, fpos, got, data, first))
    ensures Step(false, w, DownloaderStep(Proceed))
            == Standing(w, BodyCount(expected, fpos + |data|, got, |data|, first)).(disk := Put(w.disk, fpos, data))
  {
    DownloaderMoves(false, w, BodyPut(expected, fpos, got, data, first), Proceed);
  }

  lemma CountsData(w: World, expected: int, fpos: nat, got: nat, k: nat, first: bool)
    requires w.d.fault == NoFault
    requires w.d.fd.downloader == Some(BodyCount(expected, fpos, got, k, first))
    ensures var bytes := w.d.fd.bytes + k;
            Step(false, w, DownloaderStep(Proceed)) ==
            With(w, w.d.fd.(bytes := bytes,
                            downloader := Some(if first then BodyRead(expected, Seek(fpos, w.d.fd.low + bytes), got)
                                               else if bytes == expected then Firing(BodyRole, Finished)
                                               else BodyRead(expected, fpos, got))))
  {
    DownloaderMoves(false, w, BodyCount(expected, fpos, got, k, first), Proceed);
  }

  /** The world after one read, one write and one count. */
  function Advanced(w: World, expected: int, fpos: nat, got: nat, data: seq<byte>): World {
    var bytes := w.d.fd.bytes + |data|;
    World(w.d.(fd := w.d.fd.(bytes := bytes,
                             downloader := Some(if bytes == expected then Firing(BodyRole, Finished)
                                                else BodyRead(expected, fpos + |data|, got + |data|)))),
          Put(w.disk, fpos, data))
  }

  lemma OneRound(w: World, expected: int, fpos: nat, got: nat, data: seq<byte>)
    requires w.d.fault == NoFault && data != []
    requires w.d.fd.downloader == Some(BodyRead(expected, fpos, got))
    ensures var w1 := Step(false, w, DownloaderStep(Bytes(data)));
            var w2 := Step(false, w1, DownloaderStep(Proceed));
            Step(false, w2, DownloaderStep(Proceed)) == Advanced(w, expected, fpos, got, data)
  {
    ReadsData(w, expected, fpos, got, data);
    var w1 := Step(false, w, DownloaderStep(Bytes(data)));
    PutsData(w1, expected, fpos, got + |data|, data, false);
    var w2 := Step(false, w1, DownloaderStep(Proceed));
    CountsData(w2, expected, fpos + |data|, got + |data|, |data|, false);
  }

  lemma AfterRound(w: World, expected: int, fpos: nat, got: nat, data: seq<byte>, rest: seq<Label>)
    requires w.d.fault == NoFault && data != []
    requires w.d.fd.downloader == Some(BodyRead(expected, fpos, got))
    ensures Run(false, w, [DownloaderStep(Bytes(data)), DownloaderStep(Proceed), DownloaderStep(Proceed)] + rest)
            == Run(false, Advanced(w, expected, fpos, got, data), rest)
  {
    OneRound(w, expected, fpos, got, data);
    RunThree(w, DownloaderStep(Bytes(data)), DownloaderStep(Proceed), DownloaderStep(Proceed), rest);
  }

  /** The last read. */
  lemma LastRound(w: World, expected: int, fpos: nat, got: nat, o: Outcome)
    requires w.d.fault == NoFault && (o == Bytes([]) || o == ReadFail)
    requires w.d.fd.downloader == Some(BodyRead(expected, fpos, got))
    ensures var e := if o == Bytes([]) && w.d.fd.bytes == expected then Finished else ErrorRaised;
            Run(false, w, [DownloaderStep(o)]) ==
            w.(d := w.d.(fd := w.d.fd.(downloader := Some(Firing(BodyRole, e)))))
  {
    DownloaderMoves(false, w, BodyRead(expected, fpos, got), o);
    RunOne(false, w, DownloaderStep(o), []);
  }

  /** The world with the thread about to fire what it received. */
  function Ended(w: World, r: Received): World {
    World(w.d.(fd := w.d.fd.(bytes := r.bytes, downloader := Some(Firing(BodyRole, r.event)))), r.disk)
  }

  /** Run without interference from its read loop, the concurrent thread ends with
      the counter, the file and the event of `Loop`, and changes nothing else. */
  predicate LoopRuns(w: World, expected: int, fpos: nat, rs: seq<Read>) {
    Run(false, w, Script(w.d.fd.bytes, expected, rs)) == Ended(w, Loop(w.d.fd.bytes, fpos, w.disk, expected, rs))
  }

  lemma LoopStops(w: World, expected: int, fpos: nat, got: nat, rs: seq<Read>)
    requires w.d.fault == NoFault && w.d.fd.downloader == Some(BodyRead(expected, fpos, got))
    requires rs == [] || rs[0] == Data([]) || rs[0].Failed?
    ensures LoopRuns(w, expected, fpos, rs)
  {
    LastRound(w, expected, fpos, got, if rs != [] && rs[0].Failed? then ReadFail else Bytes([]));
  }

  lemma LoopCompletes(w: World, expected: int, fpos: nat, got: nat, rs: seq<Read>)
    requires w.d.fault == NoFault && w.d.fd.downloader == Some(BodyRead(expected, fpos, got))
    requires rs != [] && rs[0].Data? && rs[0].bytes != [] && w.d.fd.bytes + |rs[0].bytes| == expected
    ensures LoopRuns(w, expected, fpos, rs)
  {
    AfterRound(w, expected, fpos, got, rs[0].bytes, []);
  }

  lemma LoopGoesOn(w: World, expected: int, fpos: nat, got: nat, rs: seq<Read>)
    requires w.d.fault == NoFault && w.d.fd.downloader == Some(BodyRead(expected, fpos, got))
    requires rs != [] && rs[0].Data? && rs[0].bytes != [] && w.d.fd.bytes + |rs[0].bytes| != expected
    requires LoopRuns(Advanced(w, expected, fpos, got, rs[0].bytes), expected, fpos + |rs[0].bytes|, rs[1..])
    ensures LoopRuns(w, expected, fpos, rs)
  {
    var data := rs[0].bytes;
    var bytes := w.d.fd.bytes;
    AfterRound(w, expected, fpos, got, data, Script(bytes + |data|, expected, rs[1..]));
    ScriptStep(bytes, expected, rs);
    LoopUnfolds(bytes, fpos, w.disk, expected, rs);
    EndedAlike(w, Advanced(w, expected, fpos, got, data), Loop(bytes, fpos, w.disk, expected, rs));
  }

  lemma ScriptStep(bytes: nat, expected: int, rs: seq<Read>)
    requires rs != [] && rs[0].Data? && rs[0].bytes != [] && bytes + |rs[0].bytes| != expected
    ensures Script(bytes, expected, rs)
            == [DownloaderStep(Bytes(rs[0].bytes)), DownloaderStep(Proceed), DownloaderStep(Proceed)]
               + Script(bytes + |rs[0].bytes|, expected, rs[1..])
  {
  }

  lemma LoopUnfolds(bytes: nat, fpos: nat, disk: Disk, expected: int, rs: seq<Read>)
    requires rs != [] && rs[0].Data? && rs[0].bytes != [] && bytes + |rs[0].bytes| != expected
    ensures var data := rs[0].bytes;
            Loop(bytes, fpos, disk, expected, rs)
            == Loop(bytes + |data|, fpos + |data|, Put(disk, fpos, data), expected, rs[1..])
  {
  }

  lemma EndedAlike(w: World, w': World, r: Received)
    requires w'.d == w.d.(fd := w.d.fd.(bytes := w'.d.fd.bytes, downloader := w'.d.fd.downloader))
    ensures Ended(w', r) == Ended(w, r)
  {
  }

  lemma {:induction false} StepsRunLoop(w: World, expected: int, fpos: nat, got: nat, rs: seq<Read>)
    requires w.d.fault == NoFault && w.d.fd.downloader == Some(BodyRead(expected, fpos, got))
    ensures LoopRuns(w, expected, fpos, rs)
    decreases rs
  {
    if rs == [] || rs[0] == Data([]) || rs[0].Failed? {
      LoopStops(w, expected, fpos, got, rs);
    } else {
      var data := rs[0].bytes;
      if w.d.fd.bytes + |data| == expected {
        LoopCompletes(w, expected, fpos, got, rs);
      } else {
        StepsRunLoop(Advanced(w, expected, fpos, got, data), expected, fpos + |data|, got + |data|, rs[1..]);
        LoopGoesOn(w, expected, fpos, got, rs);
      }
    }
  }
}
