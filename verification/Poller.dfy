/**
 The completion poller of multithreaded_http_downloader. It reads the counters one
 mutex at a time while the writers run, so a round samples each counter at its own
 moment of the run; nevertheless it exits only when every chunk is complete.
 */
module Poller {
  import opened Wrappers
  import opened Downloaders
  import opened FreshStart
  import opened Chunks
  import opened Assembly

  // ---------- one round, and the loop ----------

  /** For each moment of a run, the counter of each chunk. */
  type Trace = seq<seq<nat>>

  /** A round takes counter i at moment times[i]. */
  predicate InTrace(trace: Trace, n: nat, times: seq<nat>) {
    && |times| == n
    && (forall t | 0 <= t < |trace| :: |trace[t]| == n)
    && (forall i | 0 <= i < n :: times[i] < |trace|)
  }

  predicate RoundDone(trace: Trace, sizes: seq<int>, times: seq<nat>)
    requires InTrace(trace, |sizes|, times)
    requires forall i | 0 <= i < |sizes| :: sizes[i] > 0
  {
    forall i | 0 <= i < |sizes| :: Percent(trace[times[i]][i], sizes[i]) == 100
  }

  /** The polling loop, for the moments `whens` at which its rounds happen to take
      the mutexes: it leaves at the first round that shows 100 for every chunk. */
  method PollLoop(trace: Trace, sizes: seq<int>, whens: seq<seq<nat>>) returns (exited: bool, rounds: nat)
    requires forall i | 0 <= i < |sizes| :: sizes[i] > 0
    requires forall r | 0 <= r < |whens| :: InTrace(trace, |sizes|, whens[r])
    ensures rounds <= |whens| && (exited <==> rounds < |whens|)
    ensures exited ==> RoundDone(trace, sizes, whens[rounds])
    ensures forall r | 0 <= r < rounds :: !RoundDone(trace, sizes, whens[r])
  {
    var n := |sizes|;
    var bytesDownloaded := new int[n](_ => 0);
    rounds := 0;
    exited := false;
    while rounds < |whens|
      invariant rounds <= |whens| && !exited
      invariant forall r | 0 <= r < rounds :: !RoundDone(trace, sizes, whens[r])
    {
      var cancel := true;
      var i := 0;
      while i < n
        invariant 0 <= i <= n
        invariant forall k | 0 <= k < i :: bytesDownloaded[k] == trace[whens[rounds][k]][k]
      {
        bytesDownloaded[i] := trace[whens[rounds][i]][i];
        i := i + 1;
      }
      i := 0;
      while i < n
        invariant 0 <= i <= n
        invariant cancel <==> forall k | 0 <= k < i :: Percent(trace[whens[rounds][k]][k], sizes[k]) == 100
      {
        var j := Percent(bytesDownloaded[i], sizes[i]);
        if j != 100 {
          cancel := false;
        }
        i := i + 1;
      }
      if cancel {
        exited := true;
        return;
      }
      rounds := rounds + 1;
    }
  }

  // ---------- the counters of a run ----------

  function Counters(s: System): seq<nat> {
    seq(|s.ds|, i requires 0 <= i < |s.ds| => s.ds[i].fd.bytes)
  }

  /** The counters after each prefix of the run. */
  function TraceOf(s: System, ms: seq<Move>): Trace {
    seq(|ms| + 1, t requires 0 <= t <= |ms| => Counters(SysRun(s, ms[..t])))
  }

  function Sizes(fileSize: int): seq<int>
    requires CHUNK <= fileSize
  {
    seq(ChunkCount(fileSize), i => Size(fileSize, i))
  }

  lemma {:induction false} RunCountsUp(s: System, ms: seq<Move>, i: nat)
    requires i < |s.ds|
    ensures var s' := SysRun(s, ms);
            |s'.ds| == |s.ds| && s'.ds[i].fd.bytes >= s.ds[i].fd.bytes
    decreases ms
  {
    if ms != [] {
      if ms[0].i == i {
        StepCountsUp(World(s.ds[i], s.disk), ms[0].l);
      }
      RunCountsUp(SysStep(s, ms[0]), ms[1..], i);
    }
  }

  lemma {:induction false} SysRunConcat(s: System, a: seq<Move>, b: seq<Move>)
    ensures SysRun(s, a + b) == SysRun(SysRun(s, a), b)
    decreases a
  {
    if a == [] {
      assert a + b == b;
    } else {
      assert (a + b)[1..] == a[1..] + b;
      SysRunConcat(SysStep(s, a[0]), a[1..], b);
    }
  }

  lemma {:induction false} FairPrefix(s: System, ms: seq<Move>, remote: seq<byte>, t: nat)
    requires FairRun(s, ms, remote) && t <= |ms|
    ensures FairRun(s, ms[..t], remote)
    decreases ms
  {
    if ms != [] && t > 0 {
      FairPrefix(SysStep(s, ms[0]), ms[1..], remote, t - 1);
      assert ms[..t][1..] == ms[1..][..t - 1];
    }
  }

  lemma {:induction false} RunKeepsCount(s: System, ms: seq<Move>)
    ensures |SysRun(s, ms).ds| == |s.ds|
    decreases ms
  {
    if ms != [] {
      RunKeepsCount(SysStep(s, ms[0]), ms[1..]);
    }
  }

  /** A counter at an earlier moment is no larger. */
  lemma CountersGrow(s: System, ms: seq<Move>, t1: nat, t2: nat, i: nat)
    requires t1 <= t2 <= |ms| && i < |s.ds|
    ensures |SysRun(s, ms[..t1]).ds| == |SysRun(s, ms[..t2]).ds| == |s.ds|
    ensures SysRun(s, ms[..t1]).ds[i].fd.bytes <= SysRun(s, ms[..t2]).ds[i].fd.bytes
  {
    RunKeepsCount(s, ms[..t1]);
    assert ms[..t2] == ms[..t1] + ms[t1..t2];
    SysRunConcat(s, ms[..t1], ms[t1..t2]);
    RunCountsUp(SysRun(s, ms[..t1]), ms[t1..t2], i);
  }

  lemma TraceInTrace(s: System, ms: seq<Move>, times: seq<nat>)
    requires |times| == |s.ds| && forall i | 0 <= i < |times| :: times[i] <= |ms|
    ensures InTrace(TraceOf(s, ms), |s.ds|, times)
  {
    forall t | 0 <= t <= |ms| ensures |TraceOf(s, ms)[t]| == |s.ds| {
      RunKeepsCount(s, ms[..t]);
    }
  }

  lemma MomentInv(s: System, serverName: string, remote: seq<byte>, ms: seq<Move>, t: nat)
    requires Launch(s, serverName, |remote|) && FairRun(s, ms, remote) && t <= |ms|
    ensures SysInv(SysRun(s, ms[..t]), remote)
  {
    LaunchInv(s, serverName, remote);
    FairPrefix(s, ms, remote, t);
    SysRunKeeps(s, ms[..t], remote);
  }

  /** What a sample of chunk i says: 100 exactly if the chunk was complete then. */
  lemma SampleIsProgress(s: System, serverName: string, remote: seq<byte>, ms: seq<Move>, t: nat, i: nat)
    requires Launch(s, serverName, |remote|) && FairRun(s, ms, remote) && t <= |ms| && i < |s.ds|
    ensures var s' := SysRun(s, ms[..t]);
            && |s'.ds| == |s.ds| && s'.ds[i].fd.GetFileSize() == Size(|remote|, i)
            && 0 < Size(|remote|, i)
            && s'.ds[i].fd.bytes <= Size(|remote|, i)
            && 0 <= Percent(s'.ds[i].fd.bytes, Size(|remote|, i)) <= 100
            && (Percent(s'.ds[i].fd.bytes, Size(|remote|, i)) == 100 <==> ChunkDone(s'.ds[i]))
  {
    MomentInv(s, serverName, remote, ms, t);
    var s' := SysRun(s, ms[..t]);
    assert ChunkInv(s'.ds[i], s'.disk, remote, i);
    ChunkInside(|remote|, i);
    PercentIsProgress(s'.ds[i].fd.bytes, Size(|remote|, i));
  }

  // ---------- the poller against the run ----------

  /** The moments of one round, none of them later than `end`. */
  predicate OneRoundUntil(times: seq<nat>, n: nat, end: nat) {
    |times| == n && forall i | 0 <= i < n :: times[i] <= end
  }

  /** The poller never exits early. If a round ending at moment `end` shows 100 for
      every chunk, then at that moment every chunk is complete and the file on disk
      is the remote file, although every sample may be older than `end`. */
  lemma PollerNeverEarly(s: System, serverName: string, remote: seq<byte>, ms: seq<Move>,
                         times: seq<nat>, end: nat)
    requires Launch(s, serverName, |remote|) && FairRun(s, ms, remote)
    requires end <= |ms| && OneRoundUntil(times, |s.ds|, end)
    requires InTrace(TraceOf(s, ms), |Sizes(|remote|)|, times)
    requires forall i | 0 <= i < |Sizes(|remote|)| :: Sizes(|remote|)[i] > 0
    requires RoundDone(TraceOf(s, ms), Sizes(|remote|), times)
    ensures var s' := SysRun(s, ms[..end]);
            && |s'.ds| == |s.ds|
            && (forall i | 0 <= i < |s'.ds| :: ChunkDone(s'.ds[i]))
            && s'.disk == Some(remote)
  {
    var s' := SysRun(s, ms[..end]);
    RunKeepsCount(s, ms[..end]);
    forall i | 0 <= i < |s'.ds| ensures ChunkDone(s'.ds[i]) {
      SampleIsProgress(s, serverName, remote, ms, times[i], i);
      SampleIsProgress(s, serverName, remote, ms, end, i);
      assert Percent(TraceOf(s, ms)[times[i]][i], Sizes(|remote|)[i]) == 100;
      CountersGrow(s, ms, times[i], end, i);
    }
    MomentInv(s, serverName, remote, ms, end);
    AllChunksCover(s', remote);
  }

  /** And it exits in time: a round that begins when every chunk is complete shows
      100 for every chunk. */
  lemma PollerExitsWhenDone(s: System, serverName: string, remote: seq<byte>, ms: seq<Move>,
                            times: seq<nat>, begin: nat)
    requires Launch(s, serverName, |remote|) && FairRun(s, ms, remote)
    requires |times| == |s.ds| && forall i | 0 <= i < |times| :: begin <= times[i] <= |ms|
    requires begin <= |ms| && |SysRun(s, ms[..begin]).ds| == |s.ds|
    requires forall i | 0 <= i < |s.ds| :: ChunkDone(SysRun(s, ms[..begin]).ds[i])
    ensures InTrace(TraceOf(s, ms), |Sizes(|remote|)|, times)
    ensures forall i | 0 <= i < |Sizes(|remote|)| :: Sizes(|remote|)[i] > 0
    ensures RoundDone(TraceOf(s, ms), Sizes(|remote|), times)
  {
    TraceInTrace(s, ms, times);
    forall i | 0 <= i < |s.ds|
      ensures Sizes(|remote|)[i] > 0 && Percent(TraceOf(s, ms)[times[i]][i], Sizes(|remote|)[i]) == 100
    {
      SampleIsProgress(s, serverName, remote, ms, begin, i);
      SampleIsProgress(s, serverName, remote, ms, times[i], i);
      CountersGrow(s, ms, begin, times[i], i);
    }
  }

  /** The figure shown for a chunk at any moment is the whole percentage of its bytes
      on disk; it stays in 0 to 100 and never falls from one poll to a later one. */
  lemma ProgressNeverFalls(s: System, serverName: string, remote: seq<byte>, ms: seq<Move>,
                           t1: nat, t2: nat, i: nat)
    requires Launch(s, serverName, |remote|) && FairRun(s, ms, remote)
    requires t1 <= t2 <= |ms| && i < |s.ds|
    ensures Size(|remote|, i) > 0 && i < |TraceOf(s, ms)[t1]| && i < |TraceOf(s, ms)[t2]|
    ensures i < |SysRun(s, ms[..t1]).ds|
    ensures IsPercentage(Percent(TraceOf(s, ms)[t1][i], Size(|remote|, i)),
                         SysRun(s, ms[..t1]).ds[i].fd.bytes, Size(|remote|, i))
    ensures 0 <= Percent(TraceOf(s, ms)[t1][i], Size(|remote|, i))
              <= Percent(TraceOf(s, ms)[t2][i], Size(|remote|, i)) <= 100
  {
    SampleIsProgress(s, serverName, remote, ms, t1, i);
    SampleIsProgress(s, serverName, remote, ms, t2, i);
    CountersGrow(s, ms, t1, t2, i);
    PercentIsFloor(TraceOf(s, ms)[t1][i], Size(|remote|, i));
    PercentMonotone(TraceOf(s, ms)[t1][i], TraceOf(s, ms)[t2][i], Size(|remote|, i));
  }
}
