/**
 The two fseek calls of http_file_download_thread_fn as they are written. They pass
 the wanted offset where fseek takes `whence`, so they seek by 0 from the start
 (whence 0), the current position (1) or the end (2), and fail and move nothing for
 any other value that ISO C knows. Every other module models the absolute seek that is
 meant; here is exactly when the two agree, and what the code does when they do not.
 */
module Seeking {
  import opened Wrappers
  import opened Downloaders
  import opened Transfer
  import opened Threads
  import opened Chunks

  /** fseek(fp, 0, whence) at position `pos` in a file of `len` bytes. */
  function Fseek0(pos: nat, len: nat, whence: int): nat {
    if whence == 0 then 0
    else if whence == 2 then len
    else pos
  }

  /** The position at which a fresh thread writes the bytes behind the header, as written. */
  function StartAsWritten(len: nat, low: int): nat {
    Fseek0(0, len, low)
  }

  lemma ChunkZeroIffLowZero(fileSize: int, i: int)
    requires 0 <= i
    ensures Low(fileSize, i) == 0 <==> i == 0
    ensures i > 0 ==> Low(fileSize, i) > 2
  {
  }

  /** A fresh, accepted thread behind its fopen, with the seeks as written. */
  function BodyAsWritten(fd: Fd, file: seq<byte>, first: First, rs: seq<Read>): Received
    requires first.FirstData?
  {
    var n := |first.body|;
    var start := StartAsWritten(|file|, fd.low);
    var file' := Overwrite(file, start, first.body);
    Loop(n, Fseek0(start + n, |file'|, fd.low + n), Some(file'), fd.GetFileSize(), rs)
  }

  predicate IsChunk(fd: Fd, fileSize: int, i: int) {
    && CHUNK <= fileSize && 0 <= i < ChunkCount(fileSize)
    && fd.bytes == 0 && fd.low == Low(fileSize, i) && fd.high == High(fileSize, i) && fd.IsPartial()
  }

  /** For every file and every answer whose first read carries `n` body bytes, the
      thread as written does what is meant; for `tame`, only for answers that stay
      within the range and come in reads of at most one buffer. */
  ghost predicate WrittenAsMeant(fd: Fd, fileSize: int, n: nat, tame: bool) {
    forall file, first: First, rs
      | |file| == fileSize && first.FirstData? && !Rejected(fd, first) && |first.body| == n
        && (tame ==> Fits(rs, HTTP_READ_BUFFER_SIZE) && n + |Stream(rs)| <= fd.GetFileSize()) ::
      BodyAsWritten(fd, file, first, rs) == BodyThread(fd, Some(file), true, true, first, rs)
  }

  /** A fresh object with a range inside the file. */
  predicate FreshRange(fd: Fd, fileSize: int) {
    && fd.IsPartial() && !fd.WholeFile() && fd.bytes == 0
    && 0 <= fd.low <= fd.high < fileSize
  }

  lemma MeantFromStart(fd: Fd, file: seq<byte>, first: First, rs: seq<Read>)
    requires FreshRange(fd, |file|) && fd.low == 0
    requires first.FirstData? && !Rejected(fd, first) && |first.body| <= fd.GetFileSize()
    requires |first.body| != 2 || |file| == 2
    ensures BodyAsWritten(fd, file, first, rs) == BodyThread(fd, Some(file), true, true, first, rs)
  {
    OverwriteInside(file, 0, first.body);
  }

  lemma LoopNoData(bytes: nat, fpos: nat, fpos': nat, disk: Disk, expected: int, rs: seq<Read>)
    requires Stream(rs) == []
    ensures Loop(bytes, fpos, disk, expected, rs) == Loop(bytes, fpos', disk, expected, rs)
  {
  }

  /** Nothing comes behind a first read that held the whole range. */
  lemma MeantIfComplete(fd: Fd, file: seq<byte>, first: First, rs: seq<Read>)
    requires FreshRange(fd, |file|) && fd.low == 0
    requires first.FirstData? && !Rejected(fd, first) && |first.body| + |Stream(rs)| <= fd.GetFileSize() == 2
    requires |first.body| == 2
    ensures BodyAsWritten(fd, file, first, rs) == BodyThread(fd, Some(file), true, true, first, rs)
  {
    var file' := Overwrite(file, 0, first.body);
    OverwriteInside(file, 0, first.body);
    LoopNoData(2, 2, |file'|, Some(file'), 2, rs);
  }

  lemma LoopOfOne(bytes: nat, fpos: nat, disk: Disk, expected: int)
    ensures Loop(bytes, fpos, disk, expected, [Data([1])]).disk == Put(disk, fpos, [1])
  {
  }

  lemma OneRead()
    ensures Fits([Data([1])], HTTP_READ_BUFFER_SIZE) && |Stream([Data([1])])| == 1
    ensures Fits([], HTTP_READ_BUFFER_SIZE) && |Stream([])| == 0
  {
    assert [Data([1])][1..] == [];
  }

  lemma AppendGrows(file: seq<byte>, data: seq<byte>)
    ensures |Overwrite(file, |file|, data)| == |file| + |data|
  {
    OverwriteAt(file, |file|, data);
  }

  /** A range at the start after a first read with two body bytes: the rest is appended. */
  lemma TwoBytesAppend(fd: Fd, file: seq<byte>)
    requires FreshRange(fd, |file|) && fd.low == 0 && |file| > 2
    ensures var first := FirstData(true, false, true, [0, 0]);
            var rs := [Data([1])];
            BodyAsWritten(fd, file, first, rs) != BodyThread(fd, Some(file), true, true, first, rs)
  {
    var file' := Overwrite(file, 0, [0, 0]);
    OverwriteInside(file, 0, [0, 0]);
    LoopOfOne(2, |file'|, Some(file'), fd.GetFileSize());
    LoopOfOne(2, 2, Some(file'), fd.GetFileSize());
    OverwriteInside(file', 2, [1]);
    AppendGrows(file', [1]);
  }

  function Ones(n: nat): seq<byte> {
    seq(n, _ => 1)
  }

  function Blank(n: nat): seq<byte> {
    seq(n, _ => 0)
  }

  /** What a thread of a later range writes first: ones, behind the header or, if there
      was nothing, in its next read. */
  function FirstOnes(n: nat): (First, seq<Read>) {
    (FirstData(true, false, true, Ones(n)), if n == 0 then [Data([1])] else [])
  }

  /** The files as written and as meant, for a later range of a file of zeros. */
  lemma LaterRangeFiles(fd: Fd, fileSize: nat, n: nat)
    requires FreshRange(fd, fileSize) && fd.low > 0 && n <= fd.GetFileSize()
    ensures var (first, rs) := FirstOnes(n);
            var data := if n == 0 then [1] else Ones(n);
            var at := if fd.low == 2 then fileSize else 0;
            && BodyAsWritten(fd, Blank(fileSize), first, rs).disk == Some(Overwrite(Blank(fileSize), at, data))
            && BodyThread(fd, Some(Blank(fileSize)), true, true, first, rs).disk
               == Some(Overwrite(Blank(fileSize), fd.low, data))
  {
    var file := Blank(fileSize);
    if n == 0 {
      LoopOfOne(0, if fd.low == 2 then fileSize else 0, Some(file), fd.GetFileSize());
      LoopOfOne(0, fd.low, Some(file), fd.GetFileSize());
    }
  }

  lemma LaterRangeDiffers(fd: Fd, fileSize: nat, n: nat)
    requires FreshRange(fd, fileSize) && fd.low > 0 && n <= fd.GetFileSize()
    ensures var (first, rs) := FirstOnes(n);
            BodyAsWritten(fd, Blank(fileSize), first, rs)
            != BodyThread(fd, Some(Blank(fileSize)), true, true, first, rs)
  {
    var file := Blank(fileSize);
    var data := if n == 0 then [1] else Ones(n);
    LaterRangeFiles(fd, fileSize, n);
    OverwriteInside(file, fd.low, data);
    if fd.low == 2 {
      AppendGrows(file, data);
    } else {
      OverwriteInside(file, 0, data);
      assert Overwrite(file, 0, data)[0] == 1 && Overwrite(file, fd.low, data)[0] == 0;
    }
  }

  /** Where the thread as written does what is meant: a range at the start of the file,
      unless exactly two body bytes came with the header and more can follow that does
      not belong at the end of the file. */
  predicate SeeksRight(fd: Fd, fileSize: int, n: nat, tame: bool) {
    fd.low == 0 && (n != 2 || fileSize == 2 || (tame && fd.GetFileSize() == 2))
  }

  lemma SeeksRightIsMeant(fd: Fd, fileSize: int, n: nat, tame: bool)
    requires FreshRange(fd, fileSize) && n <= fd.GetFileSize() && SeeksRight(fd, fileSize, n, tame)
    ensures WrittenAsMeant(fd, fileSize, n, tame)
  {
    forall file, first: First, rs
      | |file| == fileSize && first.FirstData? && !Rejected(fd, first) && |first.body| == n
        && (tame ==> Fits(rs, HTTP_READ_BUFFER_SIZE) && n + |Stream(rs)| <= fd.GetFileSize())
      ensures BodyAsWritten(fd, file, first, rs) == BodyThread(fd, Some(file), true, true, first, rs)
    {
      if n != 2 || fileSize == 2 {
        MeantFromStart(fd, file, first, rs);
      } else {
        MeantIfComplete(fd, file, first, rs);
      }
    }
  }

  lemma OtherwiseNotMeant(fd: Fd, fileSize: nat, n: nat, tame: bool)
    requires FreshRange(fd, fileSize) && n <= fd.GetFileSize() && !SeeksRight(fd, fileSize, n, tame)
    ensures !WrittenAsMeant(fd, fileSize, n, tame)
  {
    OneRead();
    if fd.low > 0 {
      var (first, rs) := FirstOnes(n);
      LaterRangeDiffers(fd, fileSize, n);
      assert |Blank(fileSize)| == fileSize && |first.body| == n;
    } else {
      TwoBytesAppend(fd, Blank(fileSize));
      assert |Blank(fileSize)| == fileSize;
    }
  }

  /** Every fresh range of every file: the thread as written does what is meant, for all
      contents and answers, if and only if `SeeksRight`. */
  lemma RangeWrittenAsMeantIff(fd: Fd, fileSize: nat, n: nat, tame: bool)
    requires FreshRange(fd, fileSize) && n <= fd.GetFileSize()
    ensures WrittenAsMeant(fd, fileSize, n, tame) <==> SeeksRight(fd, fileSize, n, tame)
  {
    if SeeksRight(fd, fileSize, n, tame) {
      SeeksRightIsMeant(fd, fileSize, n, tame);
    } else {
      OtherwiseNotMeant(fd, fileSize, n, tame);
    }
  }

  /** Among the chunks of a partition only the first can be, if its first read did not
      carry two body bytes. */
  lemma ChunkWrittenAsMeantIff(fd: Fd, fileSize: int, i: int, n: nat, tame: bool)
    requires IsChunk(fd, fileSize, i) && n <= HTTP_READ_BUFFER_SIZE
    ensures WrittenAsMeant(fd, fileSize, n, tame) <==> i == 0 && n != 2
  {
    ChunkInside(fileSize, i);
    ChunkZeroIffLowZero(fileSize, i);
    RangeWrittenAsMeantIff(fd, fileSize, n, tame);
  }

  /** Without a range the file was just truncated, and what is meant is what happens:
      the start, the current position and the end are all where the thread stands. */
  lemma WholeFileWrittenAsMeant(fd: Fd, disk: Disk, first: First, rs: seq<Read>)
    requires fd.WholeFile() && !fd.IsPartial() && fd.bytes == 0
    requires first.FirstData? && !Rejected(fd, first)
    ensures BodyAsWritten(fd, [], first, rs) == BodyThread(fd, disk, true, true, first, rs)
  {
  }

  /** Every chunk but the first goes to the start of the shared file, over the first
      chunk, with the counter and the event of a correct download: whatever order the
      chunks finish in, FINISHED says nothing about the file. */
  lemma LaterChunksOverwriteTheStart(fd: Fd, file: seq<byte>, fileSize: int, i: int, first: First, rs: seq<Read>)
    requires IsChunk(fd, fileSize, i) && i > 0
    requires first.FirstData? && !Rejected(fd, first) && |file| == fileSize
    requires |first.body| + |Stream(rs)| <= fd.GetFileSize()
    ensures var s := first.body + Stream(rs);
            var meant := BodyThread(fd, Some(file), true, true, first, rs);
            var written := BodyAsWritten(fd, file, first, rs);
            && written.disk == Put(Some(file), 0, s) && meant.disk == Put(Some(file), fd.low, s)
            && written.bytes == meant.bytes && written.event == meant.event
  {
    ChunkInside(fileSize, i);
    ChunkZeroIffLowZero(fileSize, i);
    RangeThreadOnStream(fd, Some(file), first, rs);
    BodyOnStream(0, Some(file), fd.GetFileSize(), first.body, rs);
  }

  lemma LaterChunkStarts(fileSize: int, i: int)
    requires CHUNK <= fileSize && 0 < i < ChunkCount(fileSize)
    ensures CHUNK <= Low(fileSize, i) < fileSize && CHUNK <= Size(fileSize, i)
  {
    ChunkInside(fileSize, i);
  }

  lemma StartOverwritten(file: seq<byte>, data: seq<byte>, low: nat, disk: Disk)
    requires 0 < |data| <= low < |file| && disk == Put(Some(file), 0, data)
    ensures disk.Some? && |disk.value| == |file| && disk.value[0] == data[0] && disk.value[low] == file[low]
  {
    OverwriteInside(file, 0, data);
  }

  /** After such a thread the file begins with the first byte of the later chunk,
      and the first byte of that chunk's own range is still the old one. */
  lemma LaterChunkMisplaced(fd: Fd, file: seq<byte>, fileSize: int, i: int, first: First, rs: seq<Read>)
    requires IsChunk(fd, fileSize, i) && i > 0
    requires first.FirstData? && !Rejected(fd, first) && |file| == fileSize
    requires 0 < |first.body| + |Stream(rs)| <= CHUNK
    ensures var s := first.body + Stream(rs);
            var d := BodyAsWritten(fd, file, first, rs).disk;
            d.Some? && |d.value| == fileSize && d.value[0] == s[0] && d.value[fd.low] == file[fd.low]
  {
    LaterChunkStarts(fileSize, i);
    LaterChunksOverwriteTheStart(fd, file, fileSize, i, first, rs);
    StartOverwritten(file, first.body + Stream(rs), fd.low, BodyAsWritten(fd, file, first, rs).disk);
  }
}
