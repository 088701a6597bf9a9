/**
 A transfer resumed after PAUSE. The body thread asks for its whole range again, skips
 the branch that strips the response header, and writes what it reads behind the bytes
 it already counted. Here is exactly when that leaves the shared file right.
 */
module Resuming {
  import opened Wrappers
  import opened Downloaders
  import opened Transfer
  import opened Threads

  /** The bytes the loop takes before it stops: all of the stream, or up to the read
      that makes the counter exactly `expected`. */
  function Consumed(bytes: nat, expected: int, rs: seq<Read>): seq<byte>
    decreases rs
  {
    if rs == [] || rs[0].Failed? || rs[0] == Data([]) then []
    else if bytes + |rs[0].bytes| == expected then rs[0].bytes
    else rs[0].bytes + Consumed(bytes + |rs[0].bytes|, expected, rs[1..])
  }

  lemma {:induction false} LoopConsumes(bytes: nat, fpos: nat, disk: Disk, expected: int, rs: seq<Read>)
    ensures var c := Consumed(bytes, expected, rs);
            var r := Loop(bytes, fpos, disk, expected, rs);
            r.bytes == bytes + |c| && r.disk == Put(disk, fpos, c)
    decreases rs
  {
    if rs == [] || rs[0].Failed? || rs[0] == Data([]) {
      PutNothing(disk, fpos);
    } else {
      var data := rs[0].bytes;
      if bytes + |data| != expected {
        LoopConsumes(bytes + |data|, fpos + |data|, Put(disk, fpos, data), expected, rs[1..]);
        PutTwice(disk, fpos, data, Consumed(bytes + |data|, expected, rs[1..]));
      }
    }
  }

  lemma OverwriteShows(s: seq<byte>, pos: nat, data: seq<byte>, p: nat)
    requires pos <= |s|
    ensures p < pos ==> p < |Overwrite(s, pos, data)| && Overwrite(s, pos, data)[p] == s[p]
    ensures pos <= p < pos + |data| ==>
              p < |Overwrite(s, pos, data)| && Overwrite(s, pos, data)[p] == data[p - pos]
  {
  }

  /** `a` and `b` agree from `low` up to `end`, as far as `a` was written. */
  predicate Agree(a: seq<byte>, b: seq<byte>, low: nat, end: nat) {
    forall p | low <= p < end && p < |a| && p < |b| :: a[p] == b[p]
  }

  /** `data` is what `remote` holds from `at` on, as far as `to`. */
  predicate Follows(data: seq<byte>, remote: seq<byte>, at: nat, to: nat) {
    forall k | 0 <= k < |data| && at + k < to && at + k < |remote| :: data[k] == remote[at + k]
  }

  /** What `data`, written at `at`, does to the agreement from `low` on. */
  lemma OverwriteAgreesIff(file: seq<byte>, remote: seq<byte>, low: nat, at: nat, to: nat, data: seq<byte>)
    requires low <= at <= to <= |remote| && |file| == |remote| && to <= at + |data|
    requires Agree(file, remote, low, at)
    ensures Agree(Overwrite(file, at, data), remote, low, to) <==> Follows(data, remote, at, to)
  {
    var w := Overwrite(file, at, data);
    OverwriteAt(file, at, data);
    if Agree(w, remote, low, to) {
      forall k | 0 <= k < |data| && at + k < to ensures data[k] == remote[at + k] {
        assert w[at + k] == remote[at + k];
      }
    }
  }

  /** Where the first `n` bytes of the range end, if it has that many. */
  function Reach(fd: Fd, n: nat): int {
    if n <= fd.GetFileSize() then fd.low + n else fd.low + fd.GetFileSize()
  }

  lemma ResumedThread(fd: Fd, file: seq<byte>, first: First, rs: seq<Read>)
    requires 0 < fd.bytes && 0 <= fd.low && fd.IsPartial()
    ensures var r := BodyThread(fd, Some(file), true, true, first, rs);
            var c := Consumed(fd.bytes, fd.GetFileSize(), rs);
            r.disk == Some(Overwrite(file, fd.low + fd.bytes, c)) && r.bytes == fd.bytes + |c|
  {
    LoopConsumes(fd.bytes, fd.low + fd.bytes, Some(file), fd.GetFileSize(), rs);
  }

  /** What a resumed thread reads goes behind the bytes it already has, whatever it
      is; what is too much for the range spills into the next one. */
  lemma ResumedContentIff(fd: Fd, file: seq<byte>, remote: seq<byte>, first: First, rs: seq<Read>)
    requires 0 < fd.bytes <= fd.GetFileSize() && 0 <= fd.low && fd.IsPartial()
    requires |file| == |remote| && fd.low + fd.GetFileSize() <= |remote|
    requires Agree(file, remote, fd.low, fd.low + fd.bytes)
    ensures var r := BodyThread(fd, Some(file), true, true, first, rs);
            var c := Consumed(fd.bytes, fd.GetFileSize(), rs);
            var at, end := fd.low + fd.bytes, fd.low + fd.GetFileSize();
            && r.disk.Some? && r.bytes == fd.bytes + |c|
            && (Agree(r.disk.value, remote, fd.low, Reach(fd, r.bytes)) <==> Follows(c, remote, at, Reach(fd, r.bytes)))
            && (at + |c| > end ==> |r.disk.value| > end && r.disk.value[end] == c[end - at])
  {
    var at := fd.low + fd.bytes;
    var c := Consumed(fd.bytes, fd.GetFileSize(), rs);
    ResumedThread(fd, file, first, rs);
    OverwriteAgreesIff(file, remote, fd.low, at, Reach(fd, fd.bytes + |c|), c);
    OverwriteShows(file, at, c, fd.low + fd.GetFileSize());
  }

  // ---------- an honest answer ----------

  /** "HTTP" at the start, an empty line at the end, and short enough for one read. */
  predicate IsHeader(h: seq<byte>) {
    && 8 <= |h| <= 4096
    && h[..4] == [72, 84, 84, 80] && h[|h| - 4..] == [13, 10, 13, 10]
  }

  /** An honest answer to the request for the whole range, cut into reads of at most
      one buffer: the header, then the range; either all of it, or (not `complete`)
      as much as arrived. A thread that starts at zero bytes takes the header off
      with its first read; one that resumes finds it in its stream. */
  predicate HonestAnswer(fd: Fd, remote: seq<byte>, header: seq<byte>, first: First, rs: seq<Read>, complete: bool)
    requires 0 <= fd.low <= fd.high < |remote|
  {
    var range := remote[fd.low..fd.high + 1];
    && IsHeader(header) && Fits(rs, 4096)
    && first.FirstData? && !Rejected(fd, first) && |header| + |first.body| <= 4096
    && var due := if fd.bytes == 0 then range else header + range;
       var read := if fd.bytes == 0 then first.body + Stream(rs) else Stream(rs);
       if complete then read == due && !Broken(rs) else read <= due
  }

  /** The counted bytes of the range are the remote ones. */
  predicate OwnRangeRight(fd: Fd, remote: seq<byte>, r: Received) {
    && 0 <= fd.low <= fd.high && !fd.WholeFile() && r.disk.Some? && fd.high < |r.disk.value|
    && Agree(r.disk.value, remote, fd.low, Reach(fd, r.bytes))
  }

  /** And the file keeps its length and the bytes of everybody else. */
  predicate FileRight(fd: Fd, file: seq<byte>, remote: seq<byte>, r: Received) {
    && OwnRangeRight(fd, remote, r)
    && |r.disk.value| == |file|
    && forall p | 0 <= p < |file| && !(fd.low <= p <= fd.high) :: r.disk.value[p] == file[p]
  }

  /** A thread with a range, somewhere in it. */
  predicate Within(fd: Fd) {
    && fd.IsPartial() && !fd.WholeFile() && 0 <= fd.low <= fd.high
    && fd.bytes <= fd.GetFileSize()
  }

  /** The file so far: right up to the counter. */
  predicate SoFar(fd: Fd, file: seq<byte>, remote: seq<byte>)
    requires Within(fd)
  {
    |file| == |remote| && fd.high < |remote| && Agree(file, remote, fd.low, fd.low + fd.bytes)
  }

  ghost predicate KeepsFileRight(fd: Fd, complete: bool)
    requires Within(fd)
  {
    forall file, remote, header, first, rs
      | SoFar(fd, file, remote) && HonestAnswer(fd, remote, header, first, rs, complete) ::
      FileRight(fd, file, remote, BodyThread(fd, Some(file), true, true, first, rs))
  }

  ghost predicate KeepsOwnRangeRight(fd: Fd, complete: bool)
    requires Within(fd)
  {
    forall file, remote, header, first, rs
      | SoFar(fd, file, remote) && HonestAnswer(fd, remote, header, first, rs, complete) ::
      OwnRangeRight(fd, remote, BodyThread(fd, Some(file), true, true, first, rs))
  }

  // ---------- a fresh thread is right ----------

  lemma PrefixOfSlice(s: seq<byte>, a: seq<byte>, from: nat, to: nat)
    requires from <= to <= |a| && s <= a[from..to]
    ensures |s| <= to - from && forall k | 0 <= k < |s| :: s[k] == a[from + k]
  {
  }

  /** What a fresh thread has read is the beginning of its range. */
  lemma FreshReadsRange(fd: Fd, remote: seq<byte>, header: seq<byte>, first: First, rs: seq<Read>, complete: bool)
    requires Within(fd) && fd.bytes == 0 && fd.high < |remote|
    requires HonestAnswer(fd, remote, header, first, rs, complete)
    ensures var s := first.body + Stream(rs);
            |s| <= fd.GetFileSize() && forall k | 0 <= k < |s| :: s[k] == remote[fd.low + k]
  {
    PrefixOfSlice(first.body + Stream(rs), remote, fd.low, fd.high + 1);
  }

  lemma WrittenInPlace(fd: Fd, file: seq<byte>, remote: seq<byte>, data: seq<byte>, r: Received)
    requires Within(fd) && fd.high < |remote| && |file| == |remote| && |data| <= fd.GetFileSize()
    requires forall k | 0 <= k < |data| :: data[k] == remote[fd.low + k]
    requires r.disk == Put(Some(file), fd.low, data) && r.bytes == |data|
    ensures FileRight(fd, file, remote, r)
  {
    OverwriteInside(file, fd.low, data);
  }

  lemma FreshKeepsFileRight(fd: Fd, file: seq<byte>, remote: seq<byte>, header: seq<byte>,
                            first: First, rs: seq<Read>, complete: bool)
    requires Within(fd) && fd.bytes == 0
    requires SoFar(fd, file, remote) && HonestAnswer(fd, remote, header, first, rs, complete)
    ensures FileRight(fd, file, remote, BodyThread(fd, Some(file), true, true, first, rs))
  {
    FreshReadsRange(fd, remote, header, first, rs, complete);
    RangeThreadOnStream(fd, Some(file), first, rs);
    WrittenInPlace(fd, file, remote, first.body + Stream(rs), BodyThread(fd, Some(file), true, true, first, rs));
  }

  /** A thread that has its whole range writes only behind it. */
  lemma FullKeepsOwnRange(fd: Fd, file: seq<byte>, remote: seq<byte>, first: First, rs: seq<Read>)
    requires Within(fd) && fd.bytes == fd.GetFileSize() && SoFar(fd, file, remote)
    ensures OwnRangeRight(fd, remote, BodyThread(fd, Some(file), true, true, first, rs))
  {
    var at := fd.low + fd.bytes;
    var c := Consumed(fd.bytes, fd.GetFileSize(), rs);
    LoopConsumes(fd.bytes, at, Some(file), fd.GetFileSize(), rs);
    forall p: nat | p < at
      ensures p < |Overwrite(file, at, c)| && Overwrite(file, at, c)[p] == file[p]
    {
      OverwriteShows(file, at, c, p);
    }
  }

  // ---------- a resumed thread is not ----------

  lemma ConsumedStarts(bytes: nat, expected: int, rs: seq<Read>)
    requires rs != [] && rs[0].Data? && rs[0].bytes != []
    ensures Consumed(bytes, expected, rs) != [] && Consumed(bytes, expected, rs)[0] == rs[0].bytes[0]
  {
  }

  const HEADER: seq<byte> := [72, 84, 84, 80, 13, 10, 13, 10]

  function Zeros(n: nat): seq<byte> {
    seq(n, _ => 0)
  }

  /** A complete honest answer, for a remote file of zeros. */
  lemma AnswerOnZeros(fd: Fd, complete: bool) returns (first: First, rs: seq<Read>)
    requires Within(fd) && fd.bytes > 0
    ensures HonestAnswer(fd, Zeros(fd.high + 1), HEADER, first, rs, complete)
    ensures SoFar(fd, Zeros(fd.high + 1), Zeros(fd.high + 1))
    ensures rs != [] && rs[0].Data? && rs[0].bytes != [] && rs[0].bytes[0] == 72
  {
    var due := HEADER + Zeros(fd.high + 1)[fd.low..fd.high + 1];
    first := FirstData(true, false, true, []);
    rs := Cut(due, HTTP_READ_BUFFER_SIZE);
    CutAlone(due, HTTP_READ_BUFFER_SIZE);
    assert HEADER[..4] == [72, 84, 84, 80] && HEADER[4..] == [13, 10, 13, 10];
  }

  /** What the resumed thread makes of it. */
  lemma ResumeGoesWrong(fd: Fd, first: First, rs: seq<Read>)
    requires Within(fd) && fd.bytes > 0
    requires rs != [] && rs[0].Data? && rs[0].bytes != [] && rs[0].bytes[0] == 72
    ensures var zeros := Zeros(fd.high + 1);
            var r := BodyThread(fd, Some(zeros), true, true, first, rs);
            !FileRight(fd, zeros, zeros, r) && (fd.bytes < fd.GetFileSize() ==> !OwnRangeRight(fd, zeros, r))
  {
    var zeros := Zeros(fd.high + 1);
    ResumedContentIff(fd, zeros, zeros, first, rs);
    ConsumedStarts(fd.bytes, fd.GetFileSize(), rs);
  }

  /** For all files and all honest answers, the shared file stays right if and only if
      the thread starts at zero bytes: the guard of the header-stripping branch. */
  lemma ResumeStaysRightIff(fd: Fd, complete: bool)
    requires Within(fd)
    ensures KeepsFileRight(fd, complete) <==> fd.bytes == 0
  {
    if fd.bytes == 0 {
      forall file, remote, header, first, rs
        | SoFar(fd, file, remote) && HonestAnswer(fd, remote, header, first, rs, complete)
        ensures FileRight(fd, file, remote, BodyThread(fd, Some(file), true, true, first, rs))
      {
        FreshKeepsFileRight(fd, file, remote, header, first, rs, complete);
      }
    } else {
      var first, rs := AnswerOnZeros(fd, complete);
      ResumeGoesWrong(fd, first, rs);
    }
  }

  /** For its own range alone, also if it already had all of it. */
  lemma OwnRangeStaysRightIff(fd: Fd, complete: bool)
    requires Within(fd)
    ensures KeepsOwnRangeRight(fd, complete) <==> fd.bytes == 0 || fd.bytes == fd.GetFileSize()
  {
    if fd.bytes == 0 || fd.bytes == fd.GetFileSize() {
      forall file, remote, header, first, rs
        | SoFar(fd, file, remote) && HonestAnswer(fd, remote, header, first, rs, complete)
        ensures OwnRangeRight(fd, remote, BodyThread(fd, Some(file), true, true, first, rs))
      {
        if fd.bytes == 0 {
          FreshKeepsFileRight(fd, file, remote, header, first, rs, complete);
        } else {
          FullKeepsOwnRange(fd, file, remote, first, rs);
        }
      }
    } else {
      var first, rs := AnswerOnZeros(fd, complete);
      ResumeGoesWrong(fd, first, rs);
    }
  }

  /** A resumed transfer goes wrong for every answer, for instance, on a remote file
      of zeros: an HTTP response begins with 'H' (72). */
  lemma ResumeSpoilsZeros(fd: Fd, remote: seq<byte>, first: First, rs: seq<Read>)
    requires 0 < fd.bytes < fd.GetFileSize() && 0 <= fd.low && fd.IsPartial()
    requires fd.low + fd.GetFileSize() <= |remote| && forall p | 0 <= p < |remote| :: remote[p] == 0
    requires rs != [] && rs[0].Data? && rs[0].bytes != [] && rs[0].bytes[0] == 72
    ensures var r := BodyThread(fd, Some(remote), true, true, first, rs);
            var at := fd.low + fd.bytes;
            r.disk.Some? && at < |r.disk.value| && r.disk.value[at] == 72 && remote[at] == 0
  {
    var at := fd.low + fd.bytes;
    var c := Consumed(fd.bytes, fd.GetFileSize(), rs);
    LoopConsumes(fd.bytes, at, Some(remote), fd.GetFileSize(), rs);
    assert c != [] && c[0] == 72;
    OverwriteShows(remote, at, c, at);
  }
}
