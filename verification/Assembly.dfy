/**
 The n downloaders together: for every interleaving, what is on the shared file is
 right at every step, and the file is the remote one once all counters are full.
 */
module Assembly {
  import opened Wrappers
  import opened Fsm
  import opened Downloaders
  import opened Invariant
  import opened FreshStart
  import opened Servers
  import opened Chunks
  import opened Parallel

  datatype System = System(ds: seq<Downloader>, disk: Disk)

  /** A step of the i-th downloader. */
  datatype Move = Move(i: nat, l: Label)

  function SysStep(s: System, m: Move): System {
    if m.i >= |s.ds| then s
    else
      var w := Step(false, World(s.ds[m.i], s.disk), m.l);
      System(s.ds[m.i := w.d], w.disk)
  }

  function SysRun(s: System, ms: seq<Move>): System
    decreases ms
  {
    if ms == [] then s else SysRun(SysStep(s, ms[0]), ms[1..])
  }

  /** multithreaded_http_downloader behind its partition: fresh downloaders, and
      the file truncated to its size. */
  predicate Launch(s: System, serverName: string, fileSize: int) {
    && CHUNK <= fileSize && |serverName| > 0
    && |s.ds| == ChunkCount(fileSize)
    && (forall i | 0 <= i < |s.ds| :: s.ds[i] == Launched(serverName, fileSize, i))
    && s.disk.Some? && |s.disk.value| == fileSize
  }

  // ---------- shared-file safety, whoever does what ----------

  predicate AllPartial(s: System) {
    forall i | 0 <= i < |s.ds| :: s.ds[i].fd.IsPartial()
  }

  lemma OverwriteGrows(s: seq<byte>, pos: nat, data: seq<byte>)
    ensures |Overwrite(s, pos, data)| >= |s|
  {
  }

  lemma WorkerNeverShrinks(w: World, t: Worker, o: Outcome)
    requires w.d.fd.IsPartial() && w.disk.Some?
    requires t.BodyOpen? ==> t.partial
    ensures var w' := RunWorker(w, t, o).0;
            w'.d.fd.flags == w.d.fd.flags && w'.disk.Some? && |w'.disk.value| >= |w.disk.value|
            && w'.d.fd.connector == w.d.fd.connector && w'.d.fd.downloader == w.d.fd.downloader
            && (RunWorker(w, t, o).1.BodyOpen? ==> RunWorker(w, t, o).1.partial)
  {
    if t.BodyPut? {
      OverwriteGrows(w.disk.value, t.fpos, t.data);
    }
  }

  /** The flag a body thread took at its start is the object's. */
  predicate FlagTaken(d: Downloader) {
    d.fd.IsPartial()
    && (d.fd.connector.Some? && d.fd.connector.value.BodyOpen? ==> d.fd.connector.value.partial)
    && (d.fd.downloader.Some? && d.fd.downloader.value.BodyOpen? ==> d.fd.downloader.value.partial)
  }

  lemma TurnNeverShrinks(w: World)
    requires FlagTaken(w.d) && w.d.queue != []
    ensures var w' := Listen(false, w); FlagTaken(w'.d) && w'.disk == w.disk
  {
    match Table(w.d.state, w.d.queue[0]) {
      case NA =>
      case Go(a, next) =>
        match a {
          case Connect =>
          case Cleanup =>
          case ConnectionUp =>
          case SendHeadRequest =>
          case LeaveRunning =>
          case HandOver =>
          case HeadLost =>
          case StartDownload =>
          case CleanupAndConnect =>
          case PauseTransfer =>
          case Finish =>
          case BodyLost =>
        }
    }
  }

  lemma ConnectorNeverShrinks(w: World, t: Worker, o: Outcome)
    requires FlagTaken(w.d) && w.disk.Some? && w.d.fault == NoFault && w.d.fd.connector == Some(t)
    ensures var w' := Step(false, w, ConnectorStep(o));
            FlagTaken(w'.d) && w'.disk.Some? && |w'.disk.value| >= |w.disk.value|
  {
    ConnectorMoves(false, w, t, o);
    WorkerNeverShrinks(w, t, o);
  }

  lemma DownloaderNeverShrinks(w: World, t: Worker, o: Outcome)
    requires FlagTaken(w.d) && w.disk.Some? && w.d.fault == NoFault && w.d.fd.downloader == Some(t)
    ensures var w' := Step(false, w, DownloaderStep(o));
            FlagTaken(w'.d) && w'.disk.Some? && |w'.disk.value| >= |w.disk.value|
  {
    DownloaderMoves(false, w, t, o);
    WorkerNeverShrinks(w, t, o);
  }

  lemma StepNeverShrinks(w: World, l: Label)
    requires FlagTaken(w.d) && w.disk.Some?
    ensures var w' := Step(false, w, l);
            FlagTaken(w'.d) && w'.disk.Some? && |w'.disk.value| >= |w.disk.value|
  {
    if w.d.fault == NoFault {
      match l {
        case Turn => if w.d.queue != [] { TurnNeverShrinks(w); }
        case ConnectorStep(o) => if w.d.fd.connector.Some? { ConnectorNeverShrinks(w, w.d.fd.connector.value, o); }
        case DownloaderStep(o) => if w.d.fd.downloader.Some? { DownloaderNeverShrinks(w, w.d.fd.downloader.value, o); }
        case Inject(_) =>
      }
    }
  }

  lemma {:induction false} RunNeverShrinks(s: System, ms: seq<Move>)
    requires s.disk.Some? && forall i | 0 <= i < |s.ds| :: FlagTaken(s.ds[i])
    ensures var s' := SysRun(s, ms);
            AllPartial(s') && s'.disk.Some? && |s'.disk.value| >= |s.disk.value|
    decreases ms
  {
    if ms != [] {
      if ms[0].i < |s.ds| {
        StepNeverShrinks(World(s.ds[ms[0].i], s.disk), ms[0].l);
      }
      RunNeverShrinks(SysStep(s, ms[0]), ms[1..]);
    }
  }

  /** No sequence of moves of any kind, however undisciplined the user or dishonest
      the server, removes or truncates the shared file, or drops the partial flag. */
  lemma SharedFileSafe(s: System, serverName: string, fileSize: int, ms: seq<Move>)
    requires Launch(s, serverName, fileSize)
    ensures var s' := SysRun(s, ms);
            AllPartial(s') && s'.disk.Some? && |s'.disk.value| >= fileSize
  {
    forall i | 0 <= i < |s.ds| ensures FlagTaken(s.ds[i]) {
      LaunchedIsInitial(serverName, fileSize, i);
    }
    RunNeverShrinks(s, ms);
  }

  // ---------- assembly ----------

  /** The moves the content theorems are about: disciplined events, PAUSE among them
      as long as one taken in FD_IN_PROGRESS finds zero bytes, and an honest server. */
  predicate Fair(s: System, m: Move, remote: seq<byte>) {
    m.i < |s.ds| ==>
      && Allowed(s.ds[m.i], m.l)
      && GentlePause(s.ds[m.i], m.l)
      && RangeHonest(s.ds[m.i], m.l, remote)
  }

  predicate FairRun(s: System, ms: seq<Move>, remote: seq<byte>)
    decreases ms
  {
    ms == [] || (Fair(s, ms[0], remote) && FairRun(SysStep(s, ms[0]), ms[1..], remote))
  }

  predicate ChunkInv(d: Downloader, disk: Disk, remote: seq<byte>, i: nat) {
    && Inv(d) && Fresh(d) && RangeContent(d, disk, remote)
    && d.fd.low == Low(|remote|, i) && d.fd.high == High(|remote|, i)
  }

  predicate SysInv(s: System, remote: seq<byte>) {
    && CHUNK <= |remote| && |s.ds| == ChunkCount(|remote|)
    && s.disk.Some? && |s.disk.value| == |remote|
    && forall i | 0 <= i < |s.ds| :: ChunkInv(s.ds[i], s.disk, remote, i)
  }

  lemma LaunchInv(s: System, serverName: string, remote: seq<byte>)
    requires Launch(s, serverName, |remote|)
    ensures SysInv(s, remote)
  {
    forall i | 0 <= i < |s.ds| ensures ChunkInv(s.ds[i], s.disk, remote, i) {
      LaunchedIsInitial(serverName, |remote|, i);
      ChunkInside(|remote|, i);
      InitialInv(s.ds[i]);
    }
  }

  /** The downloader that moves keeps its own invariant, and writes only inside its range. */
  lemma MoverKeeps(d: Downloader, disk: Disk, l: Label, remote: seq<byte>, i: nat)
    requires ChunkInv(d, disk, remote, i)
    requires Allowed(d, l) && GentlePause(d, l) && RangeHonest(d, l, remote)
    ensures var w' := Step(false, World(d, disk), l);
            ChunkInv(w'.d, w'.disk, remote, i) && SameOutside(disk, w'.disk, d.fd.low, d.fd.high)
  {
    var w := World(d, disk);
    StepKeeps(w, l);
    StepKeepsFresh(w, l);
    StepKeepsRange(w, l, remote);
    StepKeepsBounds(w, l);
  }

  /** A write inside another range leaves a downloader's content alone. */
  lemma BystanderKeeps(d: Downloader, disk: Disk, disk': Disk, remote: seq<byte>, low: int, high: int)
    requires Shape(d) && RangeContent(d, disk, remote)
    requires SameOutside(disk, disk', low, high)
    requires d.fd.high < low || high < d.fd.low
    ensures RangeContent(d, disk', remote)
  {
  }

  lemma SysStepKeeps(s: System, m: Move, remote: seq<byte>)
    requires SysInv(s, remote) && Fair(s, m, remote)
    ensures SysInv(SysStep(s, m), remote)
  {
    if m.i < |s.ds| {
      var s' := SysStep(s, m);
      MoverKeeps(s.ds[m.i], s.disk, m.l, remote, m.i);
      forall j | 0 <= j < |s'.ds| ensures ChunkInv(s'.ds[j], s'.disk, remote, j) {
        if j != m.i {
          ChunksDisjoint(|remote|, m.i, j);
          BystanderKeeps(s.ds[j], s.disk, s'.disk, remote, s.ds[m.i].fd.low, s.ds[m.i].fd.high);
        }
      }
    }
  }

  lemma {:induction false} SysRunKeeps(s: System, ms: seq<Move>, remote: seq<byte>)
    requires SysInv(s, remote) && FairRun(s, ms, remote)
    ensures SysInv(SysRun(s, ms), remote)
    decreases ms
  {
    if ms != [] {
      SysStepKeeps(s, ms[0], remote);
      SysRunKeeps(SysStep(s, ms[0]), ms[1..], remote);
    }
  }

  predicate ChunkDone(d: Downloader) {
    d.fd.bytes == d.fd.GetFileSize()
  }

  /** The first `bytes` bytes of chunk i are on disk. */
  predicate ChunkOnDisk(d: Downloader, file: seq<byte>, remote: seq<byte>, i: nat)
    requires |file| == |remote|
  {
    var low := Low(|remote|, i);
    && 0 <= low && d.fd.bytes <= Size(|remote|, i) && low + d.fd.bytes <= |remote|
    && file[low..low + d.fd.bytes] == remote[low..low + d.fd.bytes]
  }

  lemma ContentIsOnDisk(d: Downloader, disk: Disk, remote: seq<byte>, i: nat)
    requires ChunkInv(d, disk, remote, i)
    ensures ChunkOnDisk(d, disk.value, remote, i)
  {
  }

  /** Parallel assembly. After every fair run, so at every step: the file has its
      full length and each chunk's first `bytes` bytes are the remote ones; and when
      all counters are full the file is the remote file. */
  lemma Assembled(s: System, serverName: string, remote: seq<byte>, ms: seq<Move>)
    requires Launch(s, serverName, |remote|) && FairRun(s, ms, remote)
    ensures var s' := SysRun(s, ms);
            && s'.disk.Some? && |s'.disk.value| == |remote|
            && |s'.ds| == ChunkCount(|remote|)
            && (forall i | 0 <= i < |s'.ds| :: ChunkOnDisk(s'.ds[i], s'.disk.value, remote, i))
            && ((forall i | 0 <= i < |s'.ds| :: ChunkDone(s'.ds[i])) ==> s'.disk == Some(remote))
  {
    LaunchInv(s, serverName, remote);
    SysRunKeeps(s, ms, remote);
    SysInvAssembled(SysRun(s, ms), remote);
  }

  lemma SysInvAssembled(s: System, remote: seq<byte>)
    requires SysInv(s, remote)
    ensures forall i | 0 <= i < |s.ds| :: ChunkOnDisk(s.ds[i], s.disk.value, remote, i)
    ensures (forall i | 0 <= i < |s.ds| :: ChunkDone(s.ds[i])) ==> s.disk == Some(remote)
  {
    forall i | 0 <= i < |s.ds| ensures ChunkOnDisk(s.ds[i], s.disk.value, remote, i) {
      ContentIsOnDisk(s.ds[i], s.disk, remote, i);
    }
    if forall i | 0 <= i < |s.ds| :: ChunkDone(s.ds[i]) {
      AllChunksCover(s, remote);
    }
  }

  lemma AllChunksCover(s: System, remote: seq<byte>)
    requires SysInv(s, remote)
    requires forall i | 0 <= i < |s.ds| :: ChunkDone(s.ds[i])
    ensures s.disk == Some(remote)
  {
    forall p | 0 <= p < |remote| ensures s.disk.value[p] == remote[p] {
      var i := ChunkOfByte(|remote|, p);
      assert ChunkInv(s.ds[i], s.disk, remote, i) && ChunkDone(s.ds[i]);
    }
    assert s.disk.value == remote;
  }

  // ---------- the launch loop is a fair run ----------

  function StartMoves(n: nat): seq<Move> {
    if n == 0 then [] else StartMoves(n - 1) + [Move(n - 1, Inject(Start))]
  }

  /** The system after the first k starts. */
  function AfterStarts(s: System, k: nat): System
    requires k <= |s.ds|
  {
    System(seq(|s.ds|, i requires 0 <= i < |s.ds| => if i < k then Fire(s.ds[i], Start, Outside) else s.ds[i]), s.disk)
  }

  lemma {:induction false} SysRunSnoc(s: System, ms: seq<Move>, m: Move, remote: seq<byte>)
    ensures SysRun(s, ms + [m]) == SysStep(SysRun(s, ms), m)
    ensures FairRun(s, ms, remote) && Fair(SysRun(s, ms), m, remote) ==> FairRun(s, ms + [m], remote)
    decreases ms
  {
    if ms == [] {
      assert [m][1..] == [];
      assert ms + [m] == [m];
    } else {
      assert (ms + [m])[1..] == ms[1..] + [m];
      SysRunSnoc(SysStep(s, ms[0]), ms[1..], m, remote);
    }
  }

  lemma NoStarts(s: System)
    ensures AfterStarts(s, 0) == s
  {
    assert AfterStarts(s, 0).ds == s.ds;
  }

  lemma StartMove(s: System, serverName: string, fileSize: int, k: nat, remote: seq<byte>)
    requires Launch(s, serverName, fileSize) && k < |s.ds|
    ensures Fair(AfterStarts(s, k), Move(k, Inject(Start)), remote)
    ensures SysStep(AfterStarts(s, k), Move(k, Inject(Start))) == AfterStarts(s, k + 1)
  {
    assert AfterStarts(s, k).ds[k] == Launched(serverName, fileSize, k);
    assert SysStep(AfterStarts(s, k), Move(k, Inject(Start))).ds == AfterStarts(s, k + 1).ds;
  }

  lemma OneMoreStart(s: System, serverName: string, fileSize: int, k: nat, remote: seq<byte>)
    requires Launch(s, serverName, fileSize) && k < |s.ds|
    requires FairRun(s, StartMoves(k), remote) && SysRun(s, StartMoves(k)) == AfterStarts(s, k)
    ensures FairRun(s, StartMoves(k + 1), remote) && SysRun(s, StartMoves(k + 1)) == AfterStarts(s, k + 1)
  {
    StartMove(s, serverName, fileSize, k, remote);
    SysRunSnoc(s, StartMoves(k), Move(k, Inject(Start)), remote);
  }

  /** Firing START into each machine in turn, as the launch loop does, is a fair run
      for any remote file, and leaves exactly START in every queue. */
  lemma {:induction false} LaunchLoopIsFair(s: System, serverName: string, fileSize: int, k: nat, remote: seq<byte>)
    requires Launch(s, serverName, fileSize) && k <= |s.ds|
    ensures FairRun(s, StartMoves(k), remote)
    ensures SysRun(s, StartMoves(k)) == AfterStarts(s, k)
  {
    if k > 0 {
      LaunchLoopIsFair(s, serverName, fileSize, k - 1, remote);
      OneMoreStart(s, serverName, fileSize, k - 1, remote);
    } else {
      NoStarts(s);
    }
  }
}
