/**
 The chunk partition of multithreaded_http_downloader: which byte ranges the n
 downloaders get, that they tile the file, and the loops that create and start
 the downloaders.
 */
module Chunks {
  import opened Wrappers
  import opened Fsm
  import opened Downloaders
  import opened Tables
  import opened HttpFds
  import opened Engine

  const MB: int := 1024 * 1024
  const CHUNK_SIZE: int := 2
  const CHUNK: int := CHUNK_SIZE * MB
  const INT_MAX: int := 0x7FFF_FFFF

  predicate Int32(x: int) {
    -INT_MAX - 1 <= x <= INT_MAX
  }

  /** Division and remainder of C, which truncate toward zero. */
  function CDiv(a: int, b: int): int
    requires b > 0
  {
    if a >= 0 then a / b else -((-a) / b)
  }

  function CMod(a: int, b: int): int
    requires b > 0
  {
    a - b * CDiv(a, b)
  }

  /** What C says of the two: they recompose the dividend, and the remainder is short
      and has its sign. */
  lemma CDivisionIsC(a: int, b: int)
    requires b > 0
    ensures a == b * CDiv(a, b) + CMod(a, b)
    ensures if a >= 0 then 0 <= CMod(a, b) < b else -b < CMod(a, b) <= 0
  {
  }

  function ChunkCount(fileSize: int): int {
    CDiv(fileSize, CHUNK)
  }

  /** The arguments of the i-th SetByteRange call. */
  function Low(fileSize: int, i: int): int {
    i * CHUNK_SIZE * MB
  }

  function High(fileSize: int, i: int): int {
    var n := ChunkCount(fileSize);
    if i < n - 1 then (i + 1) * CHUNK_SIZE * MB - 1
    else n * CHUNK_SIZE * MB + CMod(fileSize, CHUNK) - 1
  }

  function Size(fileSize: int, i: int): int {
    High(fileSize, i) - Low(fileSize, i) + 1
  }

  /** The code writes fd_array[n - 1] without a check: the slot exists exactly for
      files of at least 2 MiB. */
  lemma LastChunkExistsIff(fileSize: int)
    requires Int32(fileSize)
    ensures 0 <= ChunkCount(fileSize) - 1 <==> fileSize >= 2097152
  {
  }

  /** Adjacent, non-empty ranges from 0 to the last byte, each of 2 to 4 MiB. */
  lemma ChunksTile(fileSize: int, i: int)
    requires CHUNK <= fileSize && 0 <= i < ChunkCount(fileSize)
    ensures var n := ChunkCount(fileSize);
            && Low(fileSize, 0) == 0
            && High(fileSize, n - 1) == fileSize - 1
            && (i < n - 1 ==> High(fileSize, i) + 1 == Low(fileSize, i + 1))
            && n == fileSize / 2097152
            && Low(fileSize, i) == 2097152 * i
            && High(fileSize, i) == (if i < n - 1 then 2097152 * i + 2097151 else fileSize - 1)
            && 2097152 <= Size(fileSize, i) < 4194304
            && (i < n - 1 ==> Size(fileSize, i) == 2097152)
            && 0 <= Low(fileSize, i) <= High(fileSize, i) < fileSize
  {
  }

  /** What most of the others need of it. */
  lemma ChunkInside(fileSize: int, i: int)
    requires CHUNK <= fileSize && 0 <= i < ChunkCount(fileSize)
    ensures 0 <= Low(fileSize, i) <= High(fileSize, i) < fileSize && CHUNK <= Size(fileSize, i) < 2 * CHUNK
  {
    ChunksTile(fileSize, i);
  }

  /** Every byte of the file belongs to exactly one chunk. */
  lemma ChunkOfByte(fileSize: int, p: int) returns (i: int)
    requires CHUNK <= fileSize && 0 <= p < fileSize
    ensures 0 <= i < ChunkCount(fileSize) && Low(fileSize, i) <= p <= High(fileSize, i)
    ensures forall j | 0 <= j < ChunkCount(fileSize) && Low(fileSize, j) <= p <= High(fileSize, j) :: j == i
  {
    var n := ChunkCount(fileSize);
    i := if p / CHUNK < n then p / CHUNK else n - 1;
    forall j | 0 <= j < n && Low(fileSize, j) <= p <= High(fileSize, j) ensures j == i {
      if j != i {
        ChunksDisjoint(fileSize, i, j);
      }
    }
  }

  lemma ChunksDisjoint(fileSize: int, i: int, j: int)
    requires CHUNK <= fileSize && 0 <= i < ChunkCount(fileSize) && 0 <= j < ChunkCount(fileSize) && i != j
    ensures High(fileSize, i) < Low(fileSize, j) || High(fileSize, j) < Low(fileSize, i)
  {
  }

  function SumOfSizes(fileSize: int, n: nat): int {
    if n == 0 then 0 else SumOfSizes(fileSize, n - 1) + Size(fileSize, n - 1)
  }

  lemma {:induction false} SumOfFirst(fileSize: int, k: nat)
    requires CHUNK <= fileSize && k < ChunkCount(fileSize)
    ensures SumOfSizes(fileSize, k) == k * CHUNK
  {
    if k > 0 {
      SumOfFirst(fileSize, k - 1);
    }
  }

  /** The sizes of all chunks add up to the file. */
  lemma SizesSumToFile(fileSize: int)
    requires CHUNK <= fileSize
    ensures ChunkCount(fileSize) >= 1
    ensures SumOfSizes(fileSize, ChunkCount(fileSize)) == fileSize
  {
    SumOfFirst(fileSize, ChunkCount(fileSize) - 1);
  }

  /** No intermediate product or sum of the range arguments leaves 32 bits: all are
      in 0 to 2147483647. */
  lemma NoOverflow(fileSize: int, i: int)
    requires Int32(fileSize) && CHUNK <= fileSize && 0 <= i < ChunkCount(fileSize)
    ensures var n := ChunkCount(fileSize);
            && 0 <= i * CHUNK_SIZE <= 2147483647 && 0 <= i * CHUNK_SIZE * MB <= 2147483647
            && 0 <= n * CHUNK_SIZE <= 2147483647 && 0 <= n * CHUNK_SIZE * MB <= 2147483647
            && 0 <= n * CHUNK_SIZE * MB + CMod(fileSize, CHUNK) <= 2147483647
            && (i < n - 1 ==> 0 <= (i + 1) * CHUNK_SIZE <= 2147483647 && 0 <= (i + 1) * CHUNK_SIZE * MB <= 2147483647)
            && 0 <= Low(fileSize, i) <= High(fileSize, i) <= 2147483647
            && 2097152 <= Size(fileSize, i) < 4194304
  {
  }

  // ---------- the progress figure ----------

  /** (int)((bytes * 100) / GetFileSize()) */
  function Percent(bytes: int, size: int): int
    requires size > 0
  {
    CDiv(bytes * 100, size)
  }

  lemma MulKeepsOrder(a: int, b: int, c: int)
    requires a <= b && 0 <= c
    ensures a * c <= b * c
  {
    assert (b - a) * c >= 0;
  }

  lemma QuotientOf(x: int, size: int) returns (q: int)
    requires size > 0
    ensures q == x / size && q * size <= x < (q + 1) * size
  {
    q := x / size;
  }

  /** The figure is the largest whole percentage that the bytes cover. */
  predicate IsPercentage(j: int, bytes: int, size: int) {
    j * size <= bytes * 100 < (j + 1) * size
  }

  lemma PercentIsFloor(bytes: int, size: int)
    requires 0 <= bytes && 0 < size
    ensures IsPercentage(Percent(bytes, size), bytes, size)
  {
    var _ := QuotientOf(bytes * 100, size);
  }

  /** The poller's test j == 100 is the test bytes == size, and nothing overflows. */
  lemma PercentIsProgress(bytes: int, size: int)
    requires 0 <= bytes <= size && 0 < size < 4194304
    ensures 0 <= bytes * 100 <= 2147483647
    ensures Percent(bytes, size) * size <= bytes * 100 < (Percent(bytes, size) + 1) * size
    ensures 0 <= Percent(bytes, size) <= 100
    ensures Percent(bytes, size) == 100 <==> bytes == size
  {
    PercentIsFloor(bytes, size);
    var q := QuotientOf(bytes * 100, size);
    if q < 0 {
      MulKeepsOrder(q + 1, 0, size);
    }
    if q < 100 {
      MulKeepsOrder(q + 1, 100, size);
    } else {
      MulKeepsOrder(100, q, size);
      if q > 100 {
        MulKeepsOrder(101, q, size);
      }
    }
  }

  lemma PercentMonotone(a: int, b: int, size: int)
    requires 0 <= a <= b && size > 0
    ensures Percent(a, size) <= Percent(b, size)
  {
    var p := QuotientOf(a * 100, size);
    var q := QuotientOf(b * 100, size);
    if p > q {
      MulKeepsOrder(q + 1, p, size);
    }
  }

  // ---------- creating and starting the downloaders ----------

  /** A downloader fresh from its constructor, with its range set. */
  function Launched(serverName: string, fileSize: int, i: int): Downloader {
    Downloader(Init, [],
               RangeSet(Fd(-1, None, None, 0, 0, 0, 0, 0, serverName, Ledger(0, 0, 0, 0, 0, 0, 0)),
                        Low(fileSize, i), High(fileSize, i)),
               NoFault, Log([], [], []))
  }

  /** The n downloaders are initial, flagged partial, and sized by their range. */
  lemma LaunchedIsInitial(serverName: string, fileSize: int, i: int)
    requires CHUNK <= fileSize && 0 <= i < ChunkCount(fileSize) && |serverName| > 0
    ensures var d := Launched(serverName, fileSize, i);
            && Initial(d) && d.fd.IsPartial() && !d.fd.WholeFile()
            && d.fd.GetFileSize() == Size(fileSize, i)
            && d.fd.low == Low(fileSize, i) && d.fd.high == High(fileSize, i)
  {
    ChunkInside(fileSize, i);
    assert (0 as bv32 | PARTIAL_REQ) & PARTIAL_REQ != 0;
  }

  lemma AtLeastOneChunk(fileSize: int)
    requires CHUNK <= fileSize
    ensures ChunkCount(fileSize) >= 1
  {
  }

  /** new HTTP_FD and SetByteRange for every chunk; the last one takes the remainder. */
  method CreateDownloaders(serverName: string, file: OutputFile, fileSize: int) returns (fds: array<HttpFd?>)
    requires CHUNK <= fileSize
    ensures fresh(fds) && fds.Length == ChunkCount(fileSize)
    ensures forall i | 0 <= i < fds.Length ::
              && fds[i] != null && fresh(fds[i]) && fds[i].file == file
              && fds[i].Model() == Launched(serverName, fileSize, i).fd
    ensures forall i, j | 0 <= i < j < fds.Length :: fds[i] != fds[j]
  {
    var n := ChunkCount(fileSize);
    AtLeastOneChunk(fileSize);
    fds := new HttpFd?[n](_ => null);
    var i := 0;
    while i < n - 1
      invariant 0 <= i <= n - 1
      invariant forall k | 0 <= k < i ::
                  && fds[k] != null && fresh(fds[k]) && fds[k].file == file
                  && fds[k].Model() == Launched(serverName, fileSize, k).fd
      invariant forall j, k | 0 <= j < k < i :: fds[j] != fds[k]
    {
      var fd := new HttpFd(serverName, file);
      fd.SetByteRange(i * CHUNK_SIZE * MB, (i + 1) * CHUNK_SIZE * MB - 1);
      fds[i] := fd;
      i := i + 1;
    }
    var last := new HttpFd(serverName, file);
    last.SetByteRange((n - 1) * CHUNK_SIZE * MB, n * CHUNK_SIZE * MB + CMod(fileSize, CHUNK) - 1);
    fds[n - 1] := last;
  }

  /** The launch loop: one engine per downloader, each with START in its pipe. */
  method StartDownloaders(fds: array<HttpFd?>, tables: StateTables, ghost serverName: string, ghost fileSize: int)
    returns (efsms: array<Efsm?>)
    requires tables.Valid() && tables.installed
    requires forall i | 0 <= i < fds.Length ::
               fds[i] != null && fds[i].Model() == Launched(serverName, fileSize, i).fd
    ensures fresh(efsms) && efsms.Length == fds.Length
    ensures forall i | 0 <= i < fds.Length ::
              && efsms[i] != null && fresh(efsms[i]) && efsms[i].Valid() && efsms[i].userData == fds[i]
              && efsms[i].Model() == Fire(Launched(serverName, fileSize, i), Start, Outside)
  {
    efsms := new Efsm?[fds.Length](_ => null);
    var i := 0;
    while i < fds.Length
      invariant 0 <= i <= fds.Length
      invariant forall k | 0 <= k < i ::
                  && efsms[k] != null && fresh(efsms[k]) && efsms[k].Valid() && efsms[k].userData == fds[k]
                  && efsms[k].Model() == Fire(Launched(serverName, fileSize, k), Start, Outside)
    {
      var efsm := new Efsm(tables, fds[i]);
      efsm.FireEvent(Start, Outside);
      efsms[i] := efsm;
      i := i + 1;
    }
  }
}
