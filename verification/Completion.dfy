/**
 The parallel download can complete: after the launch loop there is a fair run, with
 realistic answers and reads of at most one buffer, in which every chunk finishes. So
 the last clauses of `Assembly.Assembled` and `Poller.PollerNeverEarly` are not empty.
 */
module Completion {
  import opened Wrappers
  import opened Fsm
  import opened Downloaders
  import opened Chunks
  import opened Servers
  import opened Invariant
  import opened FreshStart
  import opened Assembly
  import opened Poller
  import R = Reachability
  import W = WholeFile
  import Transfer

  /** A run of the i-th downloader as moves of the system. */
  function Moves(i: nat, ls: seq<Label>): seq<Move> {
    if ls == [] then [] else [Move(i, ls[0])] + Moves(i, ls[1..])
  }

  lemma {:induction false} SoloRun(s: System, i: nat, ls: seq<Label>)
    requires i < |s.ds|
    ensures var w := Run(false, World(s.ds[i], s.disk), ls);
            SysRun(s, Moves(i, ls)) == System(s.ds[i := w.d], w.disk)
    decreases ls
  {
    if ls == [] {
      assert s.ds[i := s.ds[i]] == s.ds;
    } else {
      var s1 := SysStep(s, Move(i, ls[0]));
      SoloRun(s1, i, ls[1..]);
      assert Moves(i, ls)[1..] == Moves(i, ls[1..]);
      var w := Run(false, World(s.ds[i], s.disk), ls);
      assert s1.ds[i := w.d] == s.ds[i := w.d];
    }
  }

  lemma RealStepIsFair(s: System, i: nat, l: Label, remote: seq<byte>)
    requires i < |s.ds| && !s.ds[i].fd.WholeFile() && !l.Inject? && Realistic(s.ds[i], l, remote)
    requires NoPauseQueued(s.ds[i])
    ensures Fair(s, Move(i, l), remote)
  {
    RealisticIsHonest(s.ds[i], l, remote);
  }

  lemma {:induction false} SoloIsFair(s: System, i: nat, ls: seq<Label>, remote: seq<byte>)
    requires i < |s.ds| && !s.ds[i].fd.WholeFile() && Inv(s.ds[i]) && NoPauseQueued(s.ds[i])
    requires R.RealisticRun(World(s.ds[i], s.disk), ls, remote)
    ensures FairRun(s, Moves(i, ls), remote)
    decreases ls
  {
    if ls != [] {
      RealStepIsFair(s, i, ls[0], remote);
      StepKeepsBounds(World(s.ds[i], s.disk), ls[0]);
      StepKeeps(World(s.ds[i], s.disk), ls[0]);
      StepWritesNoPause(World(s.ds[i], s.disk), ls[0]);
      SoloIsFair(SysStep(s, Move(i, ls[0])), i, ls[1..], remote);
      assert Moves(i, ls)[1..] == Moves(i, ls[1..]);
    }
  }

  lemma {:induction false} FairConcat(s: System, a: seq<Move>, b: seq<Move>, remote: seq<byte>)
    requires FairRun(s, a, remote) && FairRun(SysRun(s, a), b, remote)
    ensures FairRun(s, a + b, remote)
    decreases a
  {
    if a == [] {
      assert a + b == b;
    } else {
      assert (a + b)[1..] == a[1..] + b;
      FairConcat(SysStep(s, a[0]), a[1..], b, remote);
    }
  }

  lemma {:induction false} RealIsBuffered(w: World, ls: seq<Label>, remote: seq<byte>, i: nat)
    requires R.RealisticRun(w, ls, remote)
    ensures forall m | m in Moves(i, ls) :: Buffered(m.l)
    decreases ls
  {
    if ls != [] {
      RealIsBuffered(Step(false, w, ls[0]), ls[1..], remote, i);
    }
  }

  /** Started and waiting for its first turn. */
  predicate Waits(d: Downloader, serverName: string, fileSize: int, i: nat) {
    d == Fire(Launched(serverName, fileSize, i), Start, Outside)
  }

  lemma WaitingInv(d: Downloader, serverName: string, fileSize: int, i: nat)
    requires CHUNK <= fileSize && i < ChunkCount(fileSize) && |serverName| > 0
    requires Waits(d, serverName, fileSize, i)
    ensures Inv(d) && NoPauseQueued(d)
  {
    LaunchedIsInitial(serverName, fileSize, i);
    var launched := Launched(serverName, fileSize, i);
    InitialInv(launched);
    StepKeeps(World(launched, None), Inject(Start));
  }

  predicate Complete(d: Downloader, fileSize: int, i: nat) {
    d.state == FdFinished && d.fd.bytes == Size(fileSize, i)
  }

  /** The first k chunks are finished, the others wait. */
  predicate FinishedUpTo(s: System, serverName: string, fileSize: int, k: nat) {
    && |s.ds| == ChunkCount(fileSize) && s.disk.Some? && |s.disk.value| == fileSize
    && (forall i | 0 <= i < k && i < |s.ds| :: Complete(s.ds[i], fileSize, i))
    && (forall i | k <= i < |s.ds| :: Waits(s.ds[i], serverName, fileSize, i))
  }

  /** A chunk that waits can finish on its own. */
  lemma ChunkFinishes(d: Downloader, disk: Disk, serverName: string, remote: seq<byte>, i: nat)
    returns (ls: seq<Label>)
    requires CHUNK <= |remote| && i < ChunkCount(|remote|) && |serverName| > 0
    requires Waits(d, serverName, |remote|, i) && disk.Some? && |disk.value| == |remote|
    ensures R.RealisticRun(World(d, disk), ls, remote)
    ensures var w := Run(false, World(d, disk), ls);
            Complete(w.d, |remote|, i) && w.disk.Some? && |w.disk.value| == |remote|
  {
    ChunkInside(|remote|, i);
    LaunchedIsInitial(serverName, |remote|, i);
    R.CutServes(d.fd, remote);
    var rs := Transfer.Cut(R.Wanted(d.fd, remote), HTTP_READ_BUFFER_SIZE);
    ls := R.DownloadsFromStart(World(d, disk), d.fd, remote, [], rs);
    FetchedLength(d.fd, disk, remote);
  }

  lemma FetchedLength(fd: Fd, disk: Disk, remote: seq<byte>)
    requires !fd.WholeFile() && 0 <= fd.low <= fd.high < |remote| && disk.Some? && |disk.value| == |remote|
    ensures var file := R.Fetched(fd, disk, remote); file.Some? && |file.value| == |remote|
  {
  }

  lemma OneMoreFinishes(s: System, serverName: string, remote: seq<byte>, k: nat) returns (ms: seq<Move>)
    requires CHUNK <= |remote| && |serverName| > 0
    requires FinishedUpTo(s, serverName, |remote|, k) && k < |s.ds|
    ensures FairRun(s, ms, remote) && forall m | m in ms :: Buffered(m.l)
    ensures FinishedUpTo(SysRun(s, ms), serverName, |remote|, k + 1)
  {
    LaunchedIsInitial(serverName, |remote|, k);
    WaitingInv(s.ds[k], serverName, |remote|, k);
    var ls := ChunkFinishes(s.ds[k], s.disk, serverName, remote, k);
    ms := Moves(k, ls);
    SoloRun(s, k, ls);
    SoloIsFair(s, k, ls, remote);
    RealIsBuffered(World(s.ds[k], s.disk), ls, remote, k);
  }

  lemma {:induction false} RestFinish(s: System, serverName: string, remote: seq<byte>, k: nat) returns (ms: seq<Move>)
    requires CHUNK <= |remote| && |serverName| > 0
    requires FinishedUpTo(s, serverName, |remote|, k) && k <= |s.ds|
    ensures FairRun(s, ms, remote) && forall m | m in ms :: Buffered(m.l)
    ensures FinishedUpTo(SysRun(s, ms), serverName, |remote|, |s.ds|)
    decreases |s.ds| - k
  {
    if k == |s.ds| {
      ms := [];
    } else {
      var first := OneMoreFinishes(s, serverName, remote, k);
      var s1 := SysRun(s, first);
      var rest := RestFinish(s1, serverName, remote, k + 1);
      ms := first + rest;
      SysRunConcat(s, first, rest);
      FairConcat(s, first, rest, remote);
    }
  }

  lemma StartsAreBuffered(n: nat)
    ensures forall m | m in StartMoves(n) :: Buffered(m.l)
  {
    if n > 0 {
      StartsAreBuffered(n - 1);
    }
  }

  /** For every remote file of at least one chunk, the launch loop and then some fair
      run with realistic reads bring every chunk to FD_FINISHED; by then every counter
      is full, and the file is the remote one. */
  lemma EveryChunkFinishes(s: System, serverName: string, remote: seq<byte>) returns (ms: seq<Move>)
    requires Launch(s, serverName, |remote|)
    ensures var all := StartMoves(|s.ds|) + ms;
            var s' := SysRun(s, all);
            && FairRun(s, all, remote) && (forall m | m in all :: Buffered(m.l))
            && |s'.ds| == |s.ds|
            && (forall i | 0 <= i < |s'.ds| :: s'.ds[i].state == FdFinished && ChunkDone(s'.ds[i]))
            && s'.disk == Some(remote)
  {
    var n := |s.ds|;
    LaunchLoopIsFair(s, serverName, |remote|, n, remote);
    StartsAreBuffered(n);
    var s1 := SysRun(s, StartMoves(n));
    ms := RestFinish(s1, serverName, remote, 0);
    SysRunConcat(s, StartMoves(n), ms);
    FairConcat(s, StartMoves(n), ms, remote);
    AllDone(s, serverName, remote, StartMoves(n) + ms);
  }

  /** Complete chunks are done, and assembled. */
  lemma AllDone(s: System, serverName: string, remote: seq<byte>, ms: seq<Move>)
    requires Launch(s, serverName, |remote|) && FairRun(s, ms, remote)
    requires FinishedUpTo(SysRun(s, ms), serverName, |remote|, |s.ds|)
    ensures var s' := SysRun(s, ms);
            && |s'.ds| == |s.ds|
            && (forall i | 0 <= i < |s'.ds| :: s'.ds[i].state == FdFinished && ChunkDone(s'.ds[i]))
            && s'.disk == Some(remote)
  {
    var s' := SysRun(s, ms);
    LaunchInv(s, serverName, remote);
    SysRunKeeps(s, ms, remote);
    forall i | 0 <= i < |s'.ds| ensures s'.ds[i].state == FdFinished && ChunkDone(s'.ds[i]) {
      assert Complete(s'.ds[i], |remote|, i);
      assert ChunkInv(s'.ds[i], s'.disk, remote, i);
      ChunkInside(|remote|, i);
    }
    AllChunksCover(s', remote);
  }

  /** And then the poller leaves: a round that samples each counter at the end of this
      run, or later, shows 100 everywhere. */
  lemma PollerCanExit(s: System, serverName: string, remote: seq<byte>) returns (ms: seq<Move>, times: seq<nat>)
    requires Launch(s, serverName, |remote|)
    ensures FairRun(s, ms, remote)
    ensures InTrace(TraceOf(s, ms), |Sizes(|remote|)|, times)
    ensures forall i | 0 <= i < |Sizes(|remote|)| :: Sizes(|remote|)[i] > 0
    ensures RoundDone(TraceOf(s, ms), Sizes(|remote|), times)
  {
    var moves := EveryChunkFinishes(s, serverName, remote);
    ms := StartMoves(|s.ds|) + moves;
    times := seq(|s.ds|, i => |ms|);
    assert ms[..|ms|] == ms;
    PollerExitsWhenDone(s, serverName, remote, ms, times, |ms|);
  }

  // ---------- without a range ----------

  lemma {:induction false} RealIsFairWhole(w: World, ls: seq<Label>, remote: seq<byte>)
    requires w.d.fd.WholeFile() && Inv(w.d) && NoPauseQueued(w.d) && R.RealisticRun(w, ls, remote)
    ensures W.FairWholeRun(w, ls, remote)
    decreases ls
  {
    if ls != [] {
      RealisticIsHonest(w.d, ls[0], remote);
      StepKeepsBounds(w, ls[0]);
      StepKeeps(w, ls[0]);
      StepWritesNoPause(w, ls[0]);
      RealIsFairWhole(Step(false, w, ls[0]), ls[1..], remote);
    }
  }

  /** Every fresh object without a range has a fair run to FD_FINISHED with the remote
      file on disk, so the first clause of `WholeFile.WholeFileCorrect` is not empty. */
  lemma WholeFileFinishes(w: World, remote: seq<byte>) returns (ls: seq<Label>)
    requires Initial(w.d) && w.d.fd.WholeFile() && !w.d.fd.IsPartial()
    ensures W.FairWholeRun(w, ls, remote)
    ensures var w' := Run(false, w, ls);
            w'.d.state == FdFinished && w'.disk == Some(remote)
  {
    var rest := R.CanFinish(w, remote);
    ls := [Inject(Start)] + rest;
    InitialInv(w.d);
    StepKeeps(w, Inject(Start));
    RealIsFairWhole(Step(false, w, Inject(Start)), rest, remote);
    assert ls[1..] == rest;
  }
}
